# NES emulator core, modelled and proved in Dafny

This project models the deterministic core of a TypeScript NES emulator and proves properties
of that model. It covers:

- **The cartridge.** The iNES parser (`Rom`) and the banked view of PRG and CHR memory
  (`BankMemory`). It also covers the three modelled mappers, NROM, UxROM and MMC1 with its
  five-write serial port.
- **CPU memory.** The 2 KiB of work RAM, split into zero page, stack page and RAM and mirrored
  up to 0x2000.
- **PPU memory.** The name tables under the five mirroring tables, the aliased palette, OAM and
  the CHR memory behind the mapper.
- **The 6502 instruction layer.** The 256-slot descriptor table, the positional handler and
  addressing-mode tables, and the flag arithmetic. This includes ADC/SBC carry and overflow,
  compares, shifts and rotations.
- **The CPU.** The memory map, 16-bit and indirect reads, the stack, the status byte, OAM DMA
  and its stall, NMI/IRQ service, reset and the tick that fetches, decodes and runs one
  instruction.
- **The PPU.** The eight registers as the CPU sees them, including the loopy `v`/`t`/`x`/`w`
  scroll registers. It also covers the dot and scanline schedule, background tile fetches,
  sprite evaluation, the pixel priority decision, the vblank NMI, reset and frame
  acknowledgement.
- **The joypad.** The strobe and the serial button reads.

Every JavaScript number operation is written out on unbounded integers:

- `>>` is a division by a power of two.
- A mask with `&` is a remainder.
- A `|` of disjoint bit ranges is a sum.
- A Uint8Array store keeps the value modulo 256 (`Bits.ToUint8`).
- An out-of-range typed-array write is dropped.
- A read of a missing element (`undefined`) is `None`.
- A `throw` is an `Err` result.

**Form of the model.** The source's classes that update fields in place are Dafny classes:

- `BankMemory`, `Mapper`, `CpuMemory`, `Controller`;
- `NameTable`, `PaletteTable`, `PpuMemory`;
- `Cpu` and `Ppu`.

Each of these methods is proved to leave its object in the state that a pure function of the
old state gives. Those functions (`Banking`, `Mappers`, `CpuRam`, `VideoMemory`, `CpuModel`,
`PpuModel`) carry the properties, and they are proved as lemmas in `MapperFacts`, `CpuFacts`,
`VideoMemoryFacts`, `CommonFacts` and `PpuFacts`.

## Model

| member | source | states |
|---|---|---|
| `Banking.SwitchedPointers` | src/mappers/BankMemory.ts:33-43 | The pointer table after `switchBank(from, to, value)`: pages `from/0x400` to `to/0x400` point at `value * (p2 - p1) + (i - p1)`, stored modulo 256, and the table keeps its length. |
| `Banking.SwitchedPointersFrom` | src/mappers/BankMemory.ts:38-42 | The same switch given the product `value * (p2 - p1)` directly. This is how a fractional `bankNbr / 16 - 1` enters: its product with 16 is the whole number `bankNbr - 16`. |
| `Banking.SwitchedPages` | src/mappers/BankMemory.ts:36-42 | The switch on page numbers; the table length is kept. |
| `Banking.SwitchedPagesFrom` | src/mappers/BankMemory.ts:38-42 | The switch on page numbers from a given first pointer; the table length is kept. |
| `Banking.WriteAt` | src/mappers/BankMemory.ts:45-50 | A banked write keeps the buffer's length; a pointer past the buffer drops the write. |
| `Banking.IdentityPointers` | src/mappers/BankMemory.ts:26-30 | The constructor's pointer table has one entry per 1 KiB page of the window. |
| `Banking.BankMemory.constructor` | src/mappers/BankMemory.ts:19-31 | `bankNbr` is the buffer's length in 1 KiB pages, the pointers are the identity over the window, and `swapMode` is 0. |
| `Banking.BankMemory.SwitchBank` | src/mappers/BankMemory.ts:33-43 | The new pointer array is `SwitchedPointers` of the old one. |
| `Banking.BankMemory.SwitchBankFrom` | src/mappers/BankMemory.ts:38-42 | The pointer loop: the new pointer array is `SwitchedPointersFrom` of the old one. |
| `Banking.BankMemory.Write8` | src/mappers/BankMemory.ts:45-50 | The buffer after a write is `WriteAt` of the old buffer through the current pointers. |
| `Banking.BankMemory.Read8` | src/mappers/BankMemory.ts:52-57 | A read returns the byte the page pointer selects, or `undefined` when the pointer runs past the buffer. |
| `Banking.SwitchOnlyTouchesRange` | src/mappers/BankMemory.ts:40-42 | A switch leaves every page outside `[p1, p2)` unchanged, and consecutive pages inside it point at consecutive banks modulo 256. |
| `Banking.SwitchIdempotent` | src/mappers/BankMemory.ts:33-43 | Repeating the same switch changes nothing. |
| `Banking.ReadAfterWrite` | src/mappers/BankMemory.ts:45-57 | A byte written through the pointers is read back at the same address, and a missing byte stays missing. |
| `Banking.WriteKeepsOthers` | src/mappers/BankMemory.ts:45-57 | A write changes no read at an address that resolves to a different buffer index. |
| `Banking.ReadAfterSwitch` | src/mappers/BankMemory.ts:33-57 | After a switch, a read inside the range comes from bank page `first + (page - p1)` modulo 256 at the same offset, or `undefined` past the buffer. |
| `Bits.ToUint8` | src/CpuMemory.ts:46 | A Uint8Array store keeps the value modulo 256. |
| `Bits.JsRem` | src/CpuMemory.ts:30 | JavaScript's `%`: equal to the Euclidean remainder on non-negative numbers, and negative only for a negative dividend, always within `(-n, n)`. |
| `Bits.And8` | src/Common.ts:536-545 | Bitwise `&` of two bytes, bit by bit. |
| `Bits.Or8` | src/Common.ts:811-819 | Bitwise `\|` of two bytes, bit by bit. |
| `Bits.Xor8` | src/Common.ts:721-731 | Bitwise `^` of two bytes, bit by bit. |
| `Bits.ByteBit7` | src/Common.ts:510-535 | Bit 7 of a byte is set exactly for bytes of 128 and above. |
| `Bits.BitIsDivision` | src/Ppu.ts:462-468 | `(value >> k) & 1` is `(value / 2^k) % 2`. |
| `Bits.AndBit` | src/Common.ts:536-545 | Each bit of `a & b` is the product of the operands' bits. |
| `Bits.OrBit` | src/Common.ts:811-819 | Each bit of `a \| b` is set exactly when either operand's bit is. |
| `Bits.XorBit` | src/Common.ts:721-731 | Each bit of `a ^ b` is the sum of the operands' bits modulo 2. |
| `Bits.BitwiseBound` | src/Common.ts:536-819 | `&`, `\|` and `^` of two values below 2^k stay below 2^k, so a byte operation yields a byte. |
| `Cartridge.Subarray` | src/Rom.ts:54 | `Uint8Array.subarray` with its clamping: the slice's length is the clamped range and every byte is the buffer's at the same offset. |
| `Cartridge.MapperType` | src/Rom.ts:45 | The mapper number from the high nibbles of header bytes 6 and 7 is below 256. |
| `Cartridge.MirrorTypeOf` | src/Rom.ts:47 | The mirroring mode from bits 0 and 3 of header byte 6 is one of the four modes. |
| `Cartridge.Parse` | src/Rom.ts:35-62 | The PRG is at most the header's bank count times 16 KiB. Without CHR banks the CHR is 8 KiB of zeros. |
| `Cartridge.EncodeHeader` | src/Rom.ts:41-49 | A 16-byte iNES header spelling the given counts, mapper, mirroring and region. |
| `Cartridge.ParseEncoded` | src/Rom.ts:35-62 | Round trip: parsing an encoded header followed by PRG and CHR of the stated sizes gives back every field, the PRG and (when there are CHR banks) the CHR. |
| `Cartridge.PrgSlice` | src/Rom.ts:51-54 | The PRG is exactly the header's bank count of bytes after the header when the file is long enough, and in every case a prefix of what follows the header. |
| `Cartridge.ChrSlice` | src/Rom.ts:56-62 | With CHR banks and a long enough file, the CHR is the bytes right after the PRG. |
| `Input.Reads` | src/controllers/Controller.ts:23-26 | `n` successive reads from index `i` yield `n` results. |
| `Input.Controller.constructor` | src/controllers/Controller.ts:7-13 | Eight released buttons, strobe and index 0. |
| `Input.Controller.Write8` | src/controllers/Controller.ts:15-21 | A write stores the strobe and resets the read index exactly when bit 0 is set. |
| `Input.Controller.Read8` | src/controllers/Controller.ts:23-26 | A read returns the button at the current index (`undefined` past the eighth) and advances the index. |
| `Input.ReadsAfterStrobe` | src/controllers/Controller.ts:15-26 | After a strobe, nine reads give the eight buttons in order, then `undefined`. |
| `Input.ReadsFrom` | src/controllers/Controller.ts:23-26 | The k-th of successive reads is the button at index `i + k`. |
| `CpuRam.Locate` | src/CpuMemory.ts:26-38 | Every non-negative address lands in zero page, stack page or RAM, at an index inside that array. |
| `CpuRam.ReadRam` | src/CpuMemory.ts:26-38 | A read after `address % 0x800` (JavaScript remainder) from zero page, stack or RAM. `CpuRam.MirrorAlias` and `ReadBackThroughMirrors` state its mirroring. |
| `CpuRam.WriteRam` | src/CpuMemory.ts:40-52 | A write keeps the three arrays at their sizes. |
| `CpuRam.CpuMemory.constructor` | src/CpuMemory.ts:9-11 | Three arrays of 256, 256 and 1536 bytes, all 0xff. |
| `CpuRam.CpuMemory.Read8` | src/CpuMemory.ts:26-38 | The read is `ReadRam` of the current contents. |
| `CpuRam.CpuMemory.Write8` | src/CpuMemory.ts:40-52 | The new contents are `WriteRam` of the old. |
| `CpuRam.CpuMemory.Save` | src/CpuMemory.ts:13-16 | Returns the three arrays' contents. |
| `CpuRam.CpuMemory.Load` | src/CpuMemory.ts:18-24 | The contents become the three given arrays. |
| `CpuRam.MirrorAlias` | src/CpuMemory.ts:28-30 | Every address aliases the addresses 0x800 apart from it. |
| `CpuRam.RegionSplit` | src/CpuMemory.ts:31-37 | Below 0x800: zero page under 0x100, stack page under 0x200, RAM from 0x200 on. |
| `CpuRam.ReadBackThroughMirrors` | src/CpuMemory.ts:26-52 | A written byte is read back at its address and at every mirror of it. |
| `CpuRam.WriteTouchesOneByte` | src/CpuMemory.ts:26-52 | A write changes no read at an address in a different mirror class. |
| `CpuRam.NegativeAddressesMiss` | src/CpuMemory.ts:26-52 | A negative address that is not a multiple of 0x800 reads `undefined` and its write is dropped, as a negative typed-array index does. |
| `Wrappers.Defined` | src/Cpu.ts:195-217 | A CPU read succeeds exactly when the byte is defined, and then yields it. |
| `Common.NegativeFlag` | src/Cpu.ts:310-317 | N is set exactly when bit 7 of the value's low byte is set. |
| `Common.XorSign` | src/Common.ts:510-535 | `(x ^ y) & 0x80` is set exactly when the signs of two bytes differ. |
| `Common.AddWithCarry` | src/Common.ts:510-535 | ADC: result plus 256 times carry is `a + value + c`, and overflow is set exactly when the operands share a sign that the result does not. |
| `Common.SubtractWithCarry` | src/Common.ts:879-904 | SBC: the result minus 256 times the borrow is `a - value - (1 - c)`, and overflow is set exactly when the operands' signs differ and the result's differs from `a`'s. |
| `Common.Compare` | src/Common.ts:650-666 | CMP/CPX/CPY: C exactly when register >= operand, Z exactly when equal, N from bit 7 of the difference. |
| `Common.ShiftLeft` | src/Common.ts:546-555 | ASL: result plus 256 times carry is twice the value. |
| `Common.ShiftRight` | src/Common.ts:797-808 | LSR: twice the result plus the carry is the value. |
| `Common.RotateLeft` | src/Common.ts:842-854 | ROL: result plus 256 times carry is twice the value plus the old carry. |
| `Common.RotateRight` | src/Common.ts:855-867 | ROR: twice the result plus the carry is the value plus 256 times the old carry. |
| `CommonFacts.HandlerTableShift` | src/Common.ts:509-1020 | The handler table has no entry for BVS: below BVS an opcode finds its own handler, from BVS on it finds the next opcode's, and SLO finds none. |
| `CommonFacts.HandlerTableBelowBvs` | src/Common.ts:509-621 | Handlers below BVS are the named ones. |
| `CommonFacts.HandlerTableBvsTo30` | src/Common.ts:622-787 | From BVS to LDX each opcode finds the next opcode's handler. |
| `CommonFacts.HandlerTable31To44` | src/Common.ts:787-920 | From LDY to SEC each opcode finds the next opcode's handler. |
| `CommonFacts.HandlerTable45To58` | src/Common.ts:905-1018 | From SED to ROR_ACC each opcode finds the next opcode's handler. |
| `CommonFacts.ResolverTableShift` | src/Common.ts:1028-1106 | The mode table has no entry for INDIRECT: below it each mode finds its own handler, from INDIRECT on it finds the next mode's, and ZERO_PAGE_Y finds none. |
| `CommonFacts.SloDescriptors` | src/Common.ts:224-257 | The seven SLO descriptors have size 0, and SLO has no handler. |
| `CommonFacts.SbcImmediateAlias` | src/Common.ts:478-481 | Slot 0xeb repeats SBC immediate (0xe9). |
| `CommonFacts.AddThenSubtract` | src/Common.ts:510-904 | SBC with the complementary carry undoes ADC, and its borrow is the complement of ADC's carry. |
| `CommonFacts.RotateRoundTrip` | src/Common.ts:842-867 | ROL then ROR (and ROR then ROL), passing the carry along, restores the value and the carry. |
| `CommonFacts.IndexedPageCross` | src/Common.ts:4-8 | `isPageCrossed` between `address - index` and the wrapped indexed address holds exactly when the base's low byte plus the index carries. |
| `CpuModel.BusRead` | src/Cpu.ts:195-217 | The memory map read: it keeps RAM, VRAM, the joypad buttons, the APU byte and the OAM address. |
| `CpuModel.RegisterRead` | src/Ppu.ts:406-448 | A PPU register read changes only the PPU's register state, never its VRAM or OAM address. |
| `CpuModel.ReadByte` | src/Cpu.ts:195-217 | A read that must yield a byte has the same effect on the bus as the plain read. |
| `CpuModel.Read16` | src/Cpu.ts:219-223 | `read16` yields a value below 0x10000 and keeps the APU byte. |
| `CpuModel.Read16Indirect` | src/Cpu.ts:225-232 | The indirect read yields a value below 0x10000 and keeps the APU byte. |
| `CpuModel.BusWrite` | src/Cpu.ts:234-267 | A memory map write keeps the bus well formed and the APU byte. |
| `CpuModel.Trigger` | src/Cpu.ts:175-183 | `triggerNmi`/`triggerIrq` set the pending interrupt and change nothing else. |
| `CpuModel.DmaStore` | src/Cpu.ts:248-250 | One DMA store touches only the PPU's OAM and OAM address. |
| `CpuModel.DmaCopy` | src/Cpu.ts:247-251 | The DMA loop leaves RAM and the APU byte alone. |
| `CpuModel.OamDma` | src/Cpu.ts:242-254 | The 0x4014 write keeps the bus well formed. |
| `CpuModel.Write` | src/Cpu.ts:234-267 | A CPU write can fail only at 0x4014, through a DMA read. |
| `CpuModel.Push8` | src/Cpu.ts:272-276 | A push changes only RAM on the bus. |
| `CpuModel.Push16` | src/Cpu.ts:278-285 | A 16-bit push changes only RAM on the bus. |
| `CpuModel.Pull8` | src/Cpu.ts:287-291 | A pull leaves the bus alone. |
| `CpuModel.Pull16` | src/Cpu.ts:293-296 | A 16-bit pull leaves the bus alone and yields a value below 0x10000. |
| `CpuModel.Resolve` | src/Common.ts:1028-1106 | A mode handler changes only `b` in the core, and sets `b` only for ABSOLUTE_X, ABSOLUTE_Y and INDIRECT_INDEXED_Y. |
| `CpuModel.Modify` | src/Common.ts:546-867 | The read-modify-write handlers keep the bus well formed and the APU byte. |
| `CpuModel.StoreModified` | src/Common.ts:546-867 | Storing a modified value keeps the bus well formed and the APU byte. |
| `CpuModel.JumpVector` | src/Cpu.ts:98 | A vector jump changes only `pc`. |
| `CpuModel.StackOp` | src/Common.ts:611-878 | The stack handlers keep the bus well formed and the APU byte. |
| `CpuModel.Break` | src/Common.ts:611-621 | BRK keeps the bus well formed and the APU byte. |
| `CpuModel.PushOp` | src/Common.ts:820-829 | PHA, PHP and JSR change only RAM on the bus. |
| `CpuModel.PullOp` | src/Common.ts:830-878 | PLA, PLP, RTI and RTS leave the bus alone. |
| `CpuModel.Execute` | src/Common.ts:509-1020 | Every opcode handler keeps the bus well formed and the APU byte. |
| `CpuModel.ServiceInterrupt` | src/Cpu.ts:117-139 | Interrupt service keeps the bus well formed and the APU byte. |
| `CpuModel.Step` | src/Cpu.ts:141-169 | An instruction step keeps the bus well formed and the APU byte. |
| `CpuModel.Decode` | src/Cpu.ts:147-157 | Decoding succeeds exactly when the opcode has a descriptor and its mode a handler. A missing descriptor is `Invalid instruction`. |
| `CpuModel.Perform` | src/Cpu.ts:153-169 | Running a decoded instruction keeps the bus well formed and the APU byte. |
| `CpuModel.Prepare` | src/Cpu.ts:153-160 | The mode handler then the advance. On success `pc` moves by the size and the cycles by the base cost; on failure neither moves. The stall and the pending interrupt are untouched. |
| `CpuModel.Tick` | src/Cpu.ts:103-170 | One tick keeps the bus well formed and the APU byte. |
| `CpuModel.Reset` | src/Cpu.ts:90-101 | `reset` keeps the bus well formed. |
| `Processor.Cpu.constructor` | src/Cpu.ts:59-65 | A new CPU over zeroed registers and 0xff RAM is in the state `reset` gives. |
| `Processor.Cpu.Stall` | src/Cpu.ts:81-88 | `stall` only adds the DMA stall to the counter. |
| `Processor.Cpu.Reset` | src/Cpu.ts:90-101 | The object ends where `CpuModel.Reset` takes the machine. |
| `Processor.Cpu.TriggerNmi` | src/Cpu.ts:175-178 | Sets the pending NMI as `Trigger` does. |
| `Processor.Cpu.TriggerIrq` | src/Cpu.ts:180-183 | Sets the pending IRQ as `Trigger` does. |
| `Processor.Cpu.Read8` | src/Cpu.ts:195-217 | The read and the new bus are those of `BusRead`; the core is untouched. |
| `Processor.Cpu.ReadByte` | src/Cpu.ts:195-217 | As `CpuModel.ReadByte`; the core is untouched. |
| `Processor.Cpu.Read16` | src/Cpu.ts:219-223 | As `CpuModel.Read16`; the core is untouched. |
| `Processor.Cpu.Read16Indirect` | src/Cpu.ts:225-232 | As `CpuModel.Read16Indirect`; the core is untouched. |
| `Processor.Cpu.Write8` | src/Cpu.ts:234-267 | The machine and result are those of `CpuModel.Write`. |
| `Processor.Cpu.OamDma` | src/Cpu.ts:242-254 | The machine and result are those of `CpuModel.OamDma`. |
| `Processor.Cpu.StoreOam` | src/Cpu.ts:248-250 | One DMA store as `DmaStore`. |
| `Processor.Cpu.StackPush8` | src/Cpu.ts:272-276 | As `Push8`. |
| `Processor.Cpu.StackPush16` | src/Cpu.ts:278-285 | As `Push16`. |
| `Processor.Cpu.StackPull8` | src/Cpu.ts:287-291 | As `Pull8`. |
| `Processor.Cpu.StackPull16` | src/Cpu.ts:293-296 | As `Pull16`. |
| `Processor.Cpu.GetFlags` | src/Cpu.ts:319-332 | The status byte of the current flags. |
| `Processor.Cpu.SetFlags` | src/Cpu.ts:334-342 | The flags become those the byte spells; nothing else changes. |
| `Processor.Cpu.SetCore` | src/Cpu.ts:19-48 | Replaces the registers, flags and counters. |
| `Processor.Cpu.Tick` | src/Cpu.ts:103-170 | The machine and cycle count are those of `CpuModel.Tick`. |
| `Processor.Cpu.ServiceInterrupt` | src/Cpu.ts:117-139 | As `CpuModel.ServiceInterrupt`. |
| `Processor.Cpu.JumpVector` | src/Cpu.ts:122-131 | As `CpuModel.JumpVector`. |
| `Processor.Cpu.Step` | src/Cpu.ts:141-169 | As `CpuModel.Step`. |
| `Processor.Cpu.Perform` | src/Cpu.ts:153-169 | As `CpuModel.Perform`. |
| `Processor.Cpu.Prepare` | src/Cpu.ts:153-160 | As `CpuModel.Prepare`. |
| `Processor.Cpu.Resolve` | src/Common.ts:1028-1106 | As `CpuModel.Resolve`. |
| `Processor.Cpu.ResolveAbsolute` | src/Common.ts:1029-1051 | The absolute modes, as `CpuModel.Resolve`. |
| `Processor.Cpu.ResolveIndirect` | src/Common.ts:1067-1080 | The indirect modes, as `CpuModel.Resolve`. |
| `Processor.Cpu.ResolveZeroPage` | src/Common.ts:1081-1105 | The relative and zero-page modes, as `CpuModel.Resolve`. |
| `Processor.Cpu.Index` | src/Common.ts:1034-1042 | Indexing a base sets `b` on a page cross and yields the wrapped address. |
| `Processor.Cpu.Execute` | src/Common.ts:509-1020 | As `CpuModel.Execute`. |
| `Processor.Cpu.ExecuteOnMemory` | src/Common.ts:509-1020 | The handlers that touch memory, as `CpuModel.Execute`. |
| `Processor.Cpu.ExecuteOperate` | src/Common.ts:510-904 | The handlers that read an operand, as `CpuModel.Execute`. |
| `Processor.Cpu.ExecuteOnRegisters` | src/Common.ts:556-977 | The register, flag, branch and stack handlers, as `CpuModel.Execute`. |
| `Processor.Cpu.Modify` | src/Common.ts:546-867 | As `CpuModel.Modify`. |
| `Processor.Cpu.StoreModified` | src/Common.ts:546-867 | As `CpuModel.StoreModified`. |
| `Processor.Cpu.StackOp` | src/Common.ts:611-878 | As `CpuModel.StackOp`. |
| `Processor.Cpu.Break` | src/Common.ts:611-621 | As `CpuModel.Break`. |
| `Processor.Cpu.PushOp` | src/Common.ts:820-829 | As `CpuModel.PushOp`. |
| `Processor.Cpu.JumpToSubroutine` | src/Common.ts:762-767 | JSR, as `CpuModel.PushOp`. |
| `Processor.Cpu.PullOp` | src/Common.ts:830-878 | As `CpuModel.PullOp`. |
| `Processor.Cpu.PullA` | src/Common.ts:830-836 | PLA, as `CpuModel.PullOp`. |
| `Processor.Cpu.PullFlags` | src/Common.ts:837-841 | PLP, as `CpuModel.PullOp`. |
| `Processor.Cpu.ReturnFromInterrupt` | src/Common.ts:868-873 | RTI, as `CpuModel.PullOp`. |
| `Processor.Cpu.ReturnFromSubroutine` | src/Common.ts:874-878 | RTS, as `CpuModel.PullOp`. |
| `CpuFacts.ShiftRight8OfNat` | src/Cpu.ts:280-283 | `>> 8` of a non-negative number is a division by 256. |
| `CpuFacts.PushThenPull` | src/Cpu.ts:272-291 | A pull after a push returns the pushed byte and restores `sp`. |
| `CpuFacts.Push16ThenPull16` | src/Cpu.ts:278-296 | A 16-bit pull after a 16-bit push returns the low 16 bits and restores `sp`; the high byte is pushed first. |
| `CpuFacts.Push16Layout` | src/Cpu.ts:278-285 | Where a 16-bit push leaves its two bytes. |
| `CpuFacts.Pull16Layout` | src/Cpu.ts:293-296 | A 16-bit pull reads the two bytes above `sp`, low first. |
| `CpuFacts.JsrThenRts` | src/Common.ts:762-878 | JSR then RTS returns to the byte after the JSR with `sp` restored. |
| `CpuFacts.FlagsRoundTrip` | src/Cpu.ts:319-342 | `setFlags(getFlags())` changes nothing; the byte has bit 4 clear and bit 5 set. |
| `CpuFacts.FlagsLayout` | src/Cpu.ts:319-342 | The status byte holds the six flags where `setFlags` reads them. |
| `CpuFacts.PulledFlags` | src/Common.ts:837-873 | The masks of PLP and RTI touch only bits 4 and 5, so both load the pulled byte's flags. |
| `CpuFacts.PulledBytes` | src/Common.ts:837-873 | What PLP and RTI keep of a pulled byte, bit 4 clear for PLP and as pulled for RTI. |
| `CpuFacts.PhpThenPlp` | src/Common.ts:825-841 | PHP then PLP restores every flag and `sp`. |
| `CpuFacts.IndirectStaysInPage` | src/Cpu.ts:225-232 | The indirect read takes its high byte from the same page, wrapping to the page's first byte. A zero-page pointer stays in page 0. |
| `CpuFacts.RelativeIsSigned` | src/Common.ts:1081-1090 | A RELATIVE target is the address after the branch plus the offset read as -128..127. |
| `CpuFacts.Run` | src/Cpu.ts:103-170 | `n` ticks in a row keep the bus well formed. |
| `CpuFacts.StallCost` | src/Cpu.ts:81-88 | `stall` adds 514 on an odd cycle and 513 on an even one, and nothing else. |
| `CpuFacts.StallHolds` | src/Cpu.ts:109-115 | While stalled, `n` ticks only count the stall down, each reporting 0 cycles. |
| `CpuFacts.NmiService` | src/Cpu.ts:117-139 | A pending NMI pushes the frame, jumps through 0xfffa, sets `i`, costs 7 cycles and clears the request. |
| `CpuFacts.IrqService` | src/Cpu.ts:117-139 | A pending IRQ with `i` set is serviced through 0xfffe. This is the source's `i !== 0` test. |
| `CpuFacts.IrqDropped` | src/Cpu.ts:117-139 | An IRQ with `i` clear is dropped, changing only the request and `b`, and the tick still reports 7. |
| `CpuFacts.TickInterrupt` | src/Cpu.ts:109-139 | With no stall left and a request pending, a tick only services it. |
| `CpuFacts.ClearedService` | src/Cpu.ts:117-139 | Service after the tick clears `b`. |
| `CpuFacts.ServiceFrame` | src/Cpu.ts:117-139 | Service pushes the frame, loads `pc` from the vector, sets `i`, adds 7 cycles and clears the request. |
| `CpuFacts.InterruptPushes` | src/Cpu.ts:119-122 | The pushes and the vector jump of an interrupt. |
| `CpuFacts.ResetState` | src/Cpu.ts:90-101 | `reset` zeroes A, X, Y, the cycles and the stall, drops the request, sets `sp` to 0xfd and only `i`, loads `pc` from 0xfffc, and keeps the bus. |
| `CpuFacts.RamThroughBus` | src/Cpu.ts:195-267 | A RAM byte written through the bus is read back at every mirror below 0x2000. |
| `CpuFacts.PpuRegisterMirrors` | src/Cpu.ts:199-241 | The PPU registers repeat every 8 bytes up to 0x4000, for reads and writes. |
| `CpuFacts.DmaFromRam` | src/Cpu.ts:247-251 | The DMA loop over RAM copies `count` bytes into OAM from `oamAddress` on and changes nothing else. |
| `CpuFacts.RamCopy` | src/Cpu.ts:247-251 | The plain copy keeps the bus well formed. |
| `CpuFacts.DmaIsRamCopy` | src/Cpu.ts:247-251 | Over RAM no read fails, so the DMA loop is the plain copy. |
| `CpuFacts.RamCopyFrame` | src/Cpu.ts:247-251 | The copy moves `oamAddress` on by `count` and changes nothing in the PPU but OAM. |
| `CpuFacts.RamCopyStores` | src/Cpu.ts:247-251 | The copy stores the RAM bytes in OAM in order. |
| `CpuFacts.DmaCopyStep` | src/Cpu.ts:248-250 | One loop turn over RAM reads without side effects and stores. |
| `CpuFacts.DmaCopyNext` | src/Cpu.ts:248-250 | One loop turn: a read, then the throw or a store and the rest. |
| `CpuFacts.CopiedStep` | src/Cpu.ts:247-251 | One store ahead of a copy of the rest is a copy of the whole. |
| `CpuFacts.OamDmaFromRam` | src/Cpu.ts:242-254 | A 0x4014 write of a RAM page fills OAM from `oamAddress` to its end with that page, restores `oamAddress`, and stalls the CPU; registers and RAM stay. |
| `CpuFacts.TickRuns` | src/Cpu.ts:103-170 | A tick that runs an instruction clears `b`, steps, and reports the cycles added. |
| `CpuFacts.StepFetch` | src/Cpu.ts:141-150 | The opcode is read from RAM without side effects and decoded. |
| `CpuFacts.UnknownOpcode` | src/Cpu.ts:147-150 | An opcode without a descriptor throws `Invalid instruction` and leaves the machine as it was. |
| `CpuFacts.SloStalls` | src/Cpu.ts:153-169 | An SLO opcode adds its cycles, leaves `pc` where it was and throws for the missing handler. |
| `CpuFacts.SloRepeats` | src/Cpu.ts:141-169 | The tick after an SLO throw throws again on the same opcode. |
| `CpuFacts.SloDecodes` | src/Common.ts:229 | 0x07 is SLO, zero-page, size 0, 5 cycles; ZERO_PAGE finds the zero-page-X handler through the shifted mode table. |
| `CpuFacts.PrepareZeroPageX` | src/Common.ts:1096-1100 | The zero-page-X handler reads the operand and adds X within page 0. |
| `CpuFacts.PerformMissing` | src/Cpu.ts:158-166 | An opcode without a handler throws after the mode handler and the advance. |
| `CpuFacts.AdcImmediate` | src/Common.ts:510-535 | ADC immediate adds the operand and carry to A, sets C, V, N, Z, moves `pc` by 2 and reports 2 cycles. |
| `CpuFacts.AdcPerform` | src/Common.ts:510-535 | ADC immediate run after the fetch. |
| `CpuFacts.AdcDecodes` | src/Common.ts:339 | 0x69 is ADC, immediate, 2 bytes, 2 cycles. |
| `CpuFacts.PrepareImmediate` | src/Common.ts:1057-1061 | The immediate operand is the byte after the opcode. |
| `CpuFacts.ReadHeld` | src/Cpu.ts:197-198 | A RAM byte is read without side effects. |
| `CpuFacts.ExecuteOperate` | src/Common.ts:510-545 | The operand-reading handlers apply the byte to the registers and flags. |
| `CpuFacts.TickDecoded` | src/Cpu.ts:141-169 | A decoded instruction runs `Perform` with `b` cleared. |
| `CpuFacts.BrkDecodes` | src/Common.ts:221 | 0x00 is BRK, implied, 1 byte, 7 cycles. |
| `CpuFacts.PerformBrk` | src/Cpu.ts:153-169 | BRK advances `pc` by 1 and the cycles by 7, then runs its handler. |
| `CpuFacts.PrepareImplied` | src/Common.ts:1062-1066 | The implied mode reads nothing and yields 0. |
| `CpuFacts.PerformOn` | src/Cpu.ts:153-169 | After a side-effect-free mode handler, the opcode handler runs on the advanced machine. |
| `CpuFacts.ExecuteBrk` | src/Common.ts:611-621 | BRK's handler is the stack handler. |
| `CpuFacts.BrkThenRti` | src/Common.ts:611-873 | BRK then RTI returns past BRK's padding byte with `sp` restored and the flags back, except that `\| 0x18` leaves `d` set. |
| `CpuFacts.BrkTick` | src/Cpu.ts:103-170 | A tick on 0x00 runs BRK and reports 7 cycles. |
| `CpuFacts.BrkPushes` | src/Common.ts:611-621 | BRK's stack effect and the RTI that undoes it. |
| `CpuFacts.BrkFrame` | src/Common.ts:611-621 | BRK pushes the return address and the flags, lowers `sp` by 3, sets `i` and jumps through 0xfffe. |
| `CpuFacts.FramePushes` | src/Cpu.ts:278-285 | An interrupt frame: the return address high byte first, then the status byte; `sp` three lower. |
| `CpuFacts.RtiReturns` | src/Common.ts:868-873 | RTI over a BRK frame restores `pc`, `sp` and the flags with `d` set. |
| `CpuFacts.BrkFlagsBack` | src/Common.ts:611-873 | The BRK flags byte read back by RTI gives the flags with `d` set. |
| `CpuFacts.VectorJump` | src/Cpu.ts:219-223 | A vector in cartridge space is read without side effects. |
| `CpuFacts.RtiLayout` | src/Common.ts:868-873 | RTI pulls the flags, then `pc` from the two bytes above. |
| `CpuFacts.AbsoluteXCross` | src/Common.ts:1034-1042 | ABSOLUTE_X adds X modulo 0x10000 and sets `b` exactly on a page cross. |
| `CpuFacts.Read16Held` | src/Cpu.ts:219-223 | A 16-bit operand in RAM is read without side effects. |
| `CpuFacts.IndexedCross` | src/Common.ts:1034-1051 | Indexing sets `b` exactly when the low byte plus the index carries. |
| `CpuFacts.BranchCost` | src/Common.ts:556-629 | A branch never fails and touches only the core. Untaken, it changes nothing. Taken, it jumps to the 16-bit target and costs 1 cycle, or 2 on a page change. |
| `CpuFacts.CompareFlags` | src/Common.ts:650-696 | CMP/CPX/CPY keep every register and set C, Z and N from the comparison; the other flags stay. |
| `Mappers.MapperKindOf` | src/Rom.ts:64-68 | Mapper numbers 0-2 are modelled, 3 (MMC3) is left out, and any other number throws `Invalid ROM mapper`. |
| `Mappers.LastBankPage` | src/mappers/Nrom.ts:13 | The first page of the upper PRG window: `bankNbr - 16`, which is the last 16 KiB bank's first page for whole banks. |
| `Mappers.Control` | src/mappers/Mmc1.ts:107-123 | MMC1 `control`; `MapperFacts.ControlDecodes` states how it decodes the byte. |
| `Mappers.PrgSelect` | src/mappers/Mmc1.ts:86-98 | The MMC1 PRG switch keeps a 32-page table. |
| `Mappers.Mmc1Register` | src/mappers/Mmc1.ts:60-98 | The assembled value goes to control below 0xa000; the shift register is untouched. |
| `Mappers.Mmc1Write` | src/mappers/Mmc1.ts:44-105 | An MMC1 write keeps the shift register's invariant. |
| `Mappers.Write` | src/mappers/Mapper.ts:30-32 | The mapper write: CHR below 0x2000, SRAM below 0x8000, the mapper's own register work above. `MapperFacts` states each mapper's case. |
| `Mappers.Read` | src/mappers/Mapper.ts:25-28 | The mapper read: CHR below 0x2000, SRAM from 0x6000, PRG from 0x8000. `MapperFacts.SingleBankMirrors` and `UpperHalfShowsLastBytes` state what the PRG window shows. |
| `Mappers.Mapper.constructor` | src/mappers/Nrom.ts:10-14 | Identity CHR pointers, lower PRG window at bank 0, upper window at page `bankNbr - 16`, SRAM 0xff, MMC1 registers at power-on. |
| `Mappers.Mapper.Read8` | src/mappers/Mmc1.ts:30-38 | The read is `Read` of the mapper state. |
| `Mappers.Mapper.Write8` | src/mappers/UxRom.ts:26-35 | The new state is `Write` of the old. |
| `Mappers.Mapper.Mmc1Write8` | src/mappers/Mmc1.ts:44-105 | The new state is `Mmc1Write` of the old. |
| `Mappers.Mapper.CommitRegister` | src/mappers/Mmc1.ts:60-98 | The new state is `Mmc1Register` of the old; the shift register is untouched. |
| `Mappers.Mapper.ControlRegister` | src/mappers/Mmc1.ts:107-123 | The new state is `Control` of the old. |
| `Mappers.Mapper.Tick` | src/mappers/Mapper.ts:37-39 | A mapper tick never raises an IRQ. |
| `MapperFacts.SingleBankMirrors` | src/mappers/Nrom.ts:10-14 | With one 16 KiB PRG bank, 0xc000-0xffff mirrors 0x8000-0xbfff. |
| `MapperFacts.ConstructorUpperHalf` | src/mappers/BankMemory.ts:33-43 | The constructor's pointers: identity below page 16, then `bankNbr - 16 + (i - 16)` modulo 256. |
| `MapperFacts.UpperHalfShowsLastBytes` | src/mappers/Nrom.ts:13 | The upper window shows the last 16 KiB of the PRG. |
| `MapperFacts.NromIgnoresPrgWrites` | src/mappers/Nrom.ts:26-35 | NROM ignores writes at 0x8000 and above. |
| `MapperFacts.UxRomSelectsLowerBank` | src/mappers/UxRom.ts:26-35 | A UxROM write maps bank `value % 16` into the lower window and changes nothing else. |
| `MapperFacts.LowWritesReadBack` | src/mappers/Nrom.ts:26-35 | A write below 0x2000 or in SRAM reads back and leaves the PRG and the shift register alone. |
| `MapperFacts.Mmc1Reset` | src/mappers/Mmc1.ts:51-54 | A write with bit 7 set resets the shift register and forces PRG mode 3. |
| `MapperFacts.PrgModeForced` | src/mappers/Mmc1.ts:53 | `conf \| 0x0c` gives PRG mode 3. |
| `MapperFacts.FiveWritesAssemble` | src/mappers/Mmc1.ts:57-58 | Five shifts from 0x10 assemble bit 0 of each write, first write lowest. |
| `MapperFacts.FiveWritesDispatch` | src/mappers/Mmc1.ts:44-105 | Four writes only fill the shift register; the fifth commits the value and resets it. |
| `MapperFacts.LowWritesKeepSerialPort` | src/mappers/Mmc1.ts:44-50 | Writes below 0x8000 leave the shift register alone. |
| `MapperFacts.SerialPortCycles` | src/mappers/Mmc1.ts:57-101 | Each write moves the index by one, and the fifth resets it. |
| `MapperFacts.ControlDecodes` | src/mappers/Mmc1.ts:107-123 | Control sets the mirroring from bits 0-1, the PRG mode from bits 2-3 and the CHR mode from bit 4. PRG is fixed exactly in modes 0-1 and CHR exactly in mode 0. The pointers stay. |
| `MapperFacts.PrgSelectModes` | src/mappers/Mmc1.ts:86-98 | The three PRG layouts: 32 KiB by `value / 2`, bank 0 fixed low, or the last bank fixed high. |
| `MapperFacts.ChrSelectModes` | src/mappers/Mmc1.ts:69-83 | The CHR layouts: 8 KiB by `value / 2`, or the lower 4 KiB switched; CHR1 is ignored in 8 KiB mode. |
| `VideoMemory.Lookup` | src/PpuMemory.ts:47-50 | A Uint8Array read, `undefined` past the end. |
| `VideoMemory.Store` | src/PpuMemory.ts:42-45 | A Uint8Array store keeps the length; past the end it is dropped. |
| `VideoMemory.Resolve` | src/PpuMemory.ts:52-56 | The name table index: the address folded into 4 KiB, its quarter mapped by the mirroring table. |
| `VideoMemory.PaletteIndex` | src/PpuMemory.ts:82-102 | The palette index is below 32, and 0x10/0x14/0x18/0x1c alias 0x00/0x04/0x08/0x0c. |
| `VideoMemory.VramRead` | src/PpuMemory.ts:176-187 | CHR below 0x2000, name tables to 0x3eff, and a throw for the palette range. |
| `VideoMemory.VramWrite` | src/PpuMemory.ts:156-168 | A write lands in CHR, the name tables or the palette. |
| `VideoMemory.NameTable.constructor` | src/PpuMemory.ts:18-25 | 2 KiB of zeros. |
| `VideoMemory.NameTable.Flush` | src/PpuMemory.ts:27-30 | Every byte zero, same length. |
| `VideoMemory.NameTable.Save` | src/PpuMemory.ts:32-35 | The live buffer itself. |
| `VideoMemory.NameTable.Load` | src/PpuMemory.ts:37-40 | A fresh copy of the given buffer, any length. |
| `VideoMemory.NameTable.Write8` | src/PpuMemory.ts:42-45 | Stores at the resolved index. |
| `VideoMemory.NameTable.Read8` | src/PpuMemory.ts:47-50 | Reads at the resolved index. |
| `VideoMemory.PaletteTable.constructor` | src/PpuMemory.ts:65 | 32 bytes of zeros. |
| `VideoMemory.PaletteTable.Flush` | src/PpuMemory.ts:67-70 | Every byte zero, same length. |
| `VideoMemory.PaletteTable.Save` | src/PpuMemory.ts:72-75 | The live buffer itself. |
| `VideoMemory.PaletteTable.Load` | src/PpuMemory.ts:77-80 | A fresh copy of the given buffer. |
| `VideoMemory.PaletteTable.Write8` | src/PpuMemory.ts:82-93 | Stores at the aliased palette index. |
| `VideoMemory.PaletteTable.Read8` | src/PpuMemory.ts:95-102 | Reads at the aliased palette index. |
| `VideoMemory.PpuMemory.constructor` | src/PpuMemory.ts:131-134 | Zeroed name tables, palette and OAM in front of the mapper. |
| `VideoMemory.PpuMemory.Flush` | src/PpuMemory.ts:136-141 | Zeroes the three buffers. |
| `VideoMemory.PpuMemory.Save` | src/PpuMemory.ts:143-146 | The three live buffers. |
| `VideoMemory.PpuMemory.Load` | src/PpuMemory.ts:148-154 | Fresh copies of the three buffers; the mapper is untouched. |
| `VideoMemory.PpuMemory.Write8` | src/PpuMemory.ts:156-168 | The new VRAM state is `VramWrite` of the old. |
| `VideoMemory.PpuMemory.ReadNametable` | src/PpuMemory.ts:170-174 | A name table read bypassing CHR and palette. |
| `VideoMemory.PpuMemory.Read8` | src/PpuMemory.ts:176-187 | The read is `VramRead` of the VRAM state. |
| `VideoMemoryFacts.HorizontalMirroring` | src/PpuMemory.ts:19-25 | Horizontal: 0x2000/0x2400 share a table, 0x2800/0x2c00 the other. |
| `VideoMemoryFacts.VerticalMirroring` | src/PpuMemory.ts:19-25 | Vertical: 0x2000/0x2800 share a table, 0x2400/0x2c00 the other. |
| `VideoMemoryFacts.SingleAndFourScreen` | src/PpuMemory.ts:19-25 | Single-screen shows one table everywhere; four-screen maps straight through. |
| `VideoMemoryFacts.UpperNameTablesMirror` | src/PpuMemory.ts:52-56 | 0x3000-0x3eff mirrors 0x2000-0x2eff in every mode. |
| `VideoMemoryFacts.NameTableReadAfterWrite` | src/PpuMemory.ts:42-56 | A write is read back at every address resolving to the same byte, and nothing else changes. |
| `VideoMemoryFacts.FourScreenUpperTablesMissing` | src/PpuMemory.ts:19-56 | In four-screen mode the upper two tables read `undefined` and drop writes. |
| `VideoMemoryFacts.PaletteAliasing` | src/PpuMemory.ts:82-102 | Two palette addresses share a byte exactly when equal modulo 32, or both first colors equal modulo 16. |
| `VideoMemoryFacts.PaletteReadAfterWrite` | src/PpuMemory.ts:82-102 | A palette write is read back at its address and its mirror. |
| `VideoMemoryFacts.WriteTouchesOneRegion` | src/PpuMemory.ts:156-168 | Each VRAM write lands in exactly one of CHR, name tables and palette. |
| `VideoMemoryFacts.VramNameTableRoundTrip` | src/PpuMemory.ts:156-187 | A name table write through the VRAM is read back through it. |
| `VideoMemoryFacts.VramPaletteWriteOnly` | src/PpuMemory.ts:156-187 | A palette write is stored, yet reading it back throws. |
| `VideoMemoryFacts.PaletteFold` | src/PpuMemory.ts:157-166 | The palette index ignores address bits above 0x3fff. |
| `PpuModel.Initial` | src/Ppu.ts:199-213 | A new PPU on the pre-render line with everything zero; it satisfies the invariant exactly when the VRAM has its sizes. |
| `PpuModel.ReadRegister` | src/Ppu.ts:406-448 | A register read keeps the invariant, VRAM and counters, and only 0x2002 and 0x2007 change state. |
| `PpuModel.WriteRegister` | src/Ppu.ts:451-534 | A register write records the value, keeps the invariant and counters, and touches VRAM only through 0x2004/0x2007. |
| `PpuModel.CycleTypeOf` | src/Ppu.ts:863-887 | Each dot type, both directions: 0, 1, 2-256, 257, 258, 259, 280-304, 321, 322-336, 340, and idle otherwise. |
| `PpuModel.ScanLineTypeOf` | src/Ppu.ts:892-902 | Each line type, both directions: visible below 240, vblank at 241, pre-render at 261, idle otherwise. |
| `PpuModel.NextCounters` | src/Ppu.ts:1000-1020 | `incrementCounters`: the dot, the line and the odd-frame flag after one dot. `PpuFacts.CounterSteps` proves it walks the 341 x 262 dots. |
| `PpuModel.TileRow` | src/Ppu.ts:39-63 | Eight pixels, each below 16 with the attribute bits on top. |
| `PpuModel.NameTableAddress` | src/Ppu.ts:824 | The name byte address lies in 0x2000-0x2fff. |
| `PpuModel.AttributeAddress` | src/Ppu.ts:830-834 | The attribute address lies in 0x23c0-0x2fff. |
| `PpuModel.PatternAddress` | src/Ppu.ts:839-846 | Both planes of a background row lie below 0x2000. |
| `PpuModel.AttributeBits` | src/Ppu.ts:835-836 | The palette bits are a multiple of 4 below 16. |
| `PpuModel.FetchBackground` | src/Ppu.ts:821-857 | A fetch keeps the invariant, counters, scroll and VRAM, and can fail only in four-screen mode. |
| `PpuModel.SpriteSize` | src/Ppu.ts:614-617 | 8 or 16 rows. |
| `PpuModel.Hits` | src/Ppu.ts:779-809 | The sprites on the scanline below `n`, strictly increasing. |
| `PpuModel.FetchOf` | src/Ppu.ts:734-773 | A sprite row's address lies below 0x2000 and its palette bits are a multiple of 4 below 16. |
| `PpuModel.StoredSprite` | src/Ppu.ts:795-800 | The slot holds eight pixels and the OAM index. |
| `PpuModel.EvaluateSprites` | src/Ppu.ts:779-809 | Sprite evaluation keeps the invariant and changes only the slots, count, overflow and tile bytes. |
| `PpuModel.BackgroundPixel` | src/Ppu.ts:626-632 | A background pixel is below 16. |
| `PpuModel.SpriteColorAt` | src/Ppu.ts:638-658 | A sprite pixel is below 16. |
| `PpuModel.SpritePixelFrom` | src/Ppu.ts:638-658 | A hit names a slot from `i` with a sprite-palette color that is not transparent; no hit is (0, 0). |
| `PpuModel.SpritePixel` | src/Ppu.ts:638-658 | The slot index is below 8. |
| `PpuModel.Priority` | src/Ppu.ts:701-721 | The priority decision of `renderPixel`. `PpuFacts.PixelPriority` states its cases. |
| `PpuModel.PixelAt` | src/Ppu.ts:681-732 | The pixel drawn at the current dot, with the leftmost eight columns able to hide background or sprites. |
| `PpuModel.Render` | src/Ppu.ts:681-732 | Rendering changes only the pixel, its origin and the sprite-zero hit. |
| `PpuModel.ScrollY` | src/Ppu.ts:555-593 | The Y scroll step changes only `v` and the coarse Y scratch value. |
| `PpuModel.FetchAndScroll` | src/Ppu.ts:911-916 | The eighth-dot fetch and scroll keep the invariant, counters and VRAM, and fail only in four-screen mode. |
| `PpuModel.ShiftFetchScroll` | src/Ppu.ts:909-916 | The background step keeps the invariant, counters and VRAM, and fails only in four-screen mode. |
| `PpuModel.DoPreline` | src/Ppu.ts:904-940 | The pre-render line keeps the invariant, counters and VRAM, raises no interrupt, and fails only in four-screen mode. |
| `PpuModel.PrelineRegisters` | src/Ppu.ts:919-932 | The pre-render register work keeps the invariant, counters and VRAM. |
| `PpuModel.VisibleBackground` | src/Ppu.ts:948-966 | The background part of a visible line keeps the invariant, counters and VRAM. |
| `PpuModel.DoVisibleLine` | src/Ppu.ts:942-981 | A visible line keeps the invariant, counters and VRAM, raises no interrupt, and fails only in four-screen mode. |
| `PpuModel.VisibleTail` | src/Ppu.ts:968-972 | The end of a visible dot keeps the invariant, counters and VRAM. |
| `PpuModel.DoVBlankLine` | src/Ppu.ts:983-998 | `doVBlankLine`: the vblank flag rises at dot 1, with an NMI when NMI output is on. `PpuFacts.VBlankNmi` states this for `tick`. |
| `PpuModel.RunLine` | src/Ppu.ts:1032-1042 | The line's work within `tick`, by line type and rendering switch. `PpuFacts.RunLineKeepsGood` states what it keeps. |
| `PpuModel.Tick` | src/Ppu.ts:1027-1046 | `tick`: classify the dot, do the line's work, advance the counters. `PpuFacts.TickKeepsGood`, `VBlankNmi` and `TickFailsOnlyInFourScreen` state its properties. |
| `PpuModel.AcknowledgeFrame` | src/Ppu.ts:1048-1060 | `acknowledgeFrame`; `PpuFacts.AcknowledgeClearsFlags` states its effect. |
| `PpuModel.Reset` | src/Ppu.ts:365-403 | `reset`; `PpuFacts.ResetClears` states its effect. |
| `Video.ReadTileRow` | src/Ppu.ts:39-63 | The buffer, emptied when flushing, with the tile row appended. |
| `Video.IncrementFineY` | src/Ppu.ts:560-587 | The Y increment as `YIncrement`. |
| `Video.ScrollYStep` | src/Ppu.ts:555-593 | The scroll registers as `ScrollYOf`. |
| `Video.Prioritize` | src/Ppu.ts:701-721 | The pixel as `Priority`. |
| `Video.FetchSpriteRow` | src/Ppu.ts:734-773 | The two planes read through the mapper at the sprite row's address and the row of pixels they make. |
| `Video.SpriteRowFetch` | src/Ppu.ts:734-760 | The row's address, palette bits and flip as `FetchOf`. |
| `Video.ScanSprites` | src/Ppu.ts:779-809 | The scan over the 64 OAM entries yields exactly the slots, count, overflow and tile bytes of `EvaluateSprites`. |
| `Video.FetchSprite` | src/Ppu.ts:795-800 | The slot and bytes of one sprite on the scanline. |
| `Video.ScanStore` | src/Ppu.ts:790-802 | Storing a sprite on the scanline keeps the scan invariant. |
| `Video.ScanSkip` | src/Ppu.ts:788-789 | A sprite off the scanline keeps the scan invariant. |
| `Video.ScanOverflow` | src/Ppu.ts:790-794 | A ninth sprite ends the scan with the overflow flag. |
| `Video.ScanComplete` | src/Ppu.ts:779-809 | A full scan without a ninth sprite leaves the flag alone. |
| `Video.SlotsExtend` | src/Ppu.ts:795-800 | The next hit in the next slot keeps the slot invariant. |
| `Video.ReadBackgroundRow` | src/Ppu.ts:821-857 | The reads of a background fetch, as `FetchBackground`. |
| `Video.ReadNameAndAttribute` | src/Ppu.ts:825-836 | The name and attribute bytes at the resolved addresses. |
| `Video.ReadPattern` | src/Ppu.ts:845-850 | The two planes through the mapper. |
| `Video.Ppu.constructor` | src/Ppu.ts:199-213 | The state is `Initial` of zeroed VRAM in front of the mapper. |
| `Video.Ppu.Reset` | src/Ppu.ts:365-403 | The state is `PpuModel.Reset` of the old. |
| `Video.Ppu.ResetState` | src/Ppu.ts:365-403 | The body of `reset`, as `PpuModel.Reset`. |
| `Video.Ppu.ClearVram` | src/Ppu.ts:368 | Zeroes name tables, palette and OAM, keeping their sizes. |
| `Video.Ppu.Read8` | src/Ppu.ts:406-448 | The state and byte are those of `ReadRegister`. |
| `Video.Ppu.ReadStatus` | src/Ppu.ts:409-426 | PPUSTATUS as `ReadRegister`. |
| `Video.Ppu.ReadData` | src/Ppu.ts:429-445 | PPUDATA as `ReadRegister`. |
| `Video.Ppu.Write8` | src/Ppu.ts:451-534 | The state is `WriteRegister` of the old. |
| `Video.Ppu.StoreRegister` | src/Ppu.ts:455-533 | The register dispatch, as `WriteRegister`. |
| `Video.Ppu.WriteControl` | src/Ppu.ts:457-470 | PPUCTRL as `WriteRegister`. |
| `Video.Ppu.WriteOam` | src/Ppu.ts:490-494 | OAMDATA as `WriteRegister`. |
| `Video.Ppu.WriteScrollOrAddress` | src/Ppu.ts:495-520 | PPUSCROLL and PPUADDR as `WriteRegister`. |
| `Video.Ppu.WriteData` | src/Ppu.ts:521-529 | PPUDATA: the VRAM write at `v`, then `v` moves by the increment. |
| `Video.Ppu.WriteVram` | src/Ppu.ts:523 | The VRAM write at `v`. |
| `Video.Ppu.UpdateScrollingX` | src/Ppu.ts:539-553 | `v` becomes its coarse X increment. |
| `Video.Ppu.UpdateScrollingY` | src/Ppu.ts:555-593 | The state is `ScrollY` of the old. |
| `Video.Ppu.CurrentBackgroundPixel` | src/Ppu.ts:626-632 | As `BackgroundPixel`. |
| `Video.Ppu.CurrentSpritePixel` | src/Ppu.ts:638-658 | As `SpritePixel`. |
| `Video.Ppu.RenderPixel` | src/Ppu.ts:681-732 | The state is `Render` of the old. |
| `Video.Ppu.CurrentPixel` | src/Ppu.ts:681-721 | As `PixelAt`. |
| `Video.Ppu.FetchAndStoreSpriteRows` | src/Ppu.ts:779-809 | The state is `EvaluateSprites` of the old. |
| `Video.Ppu.FetchAndStoreBackgroundRow` | src/Ppu.ts:821-857 | As `FetchBackground`. |
| `Video.Ppu.ShiftFetchScroll` | src/Ppu.ts:909-916 | As `PpuModel.ShiftFetchScroll`. |
| `Video.Ppu.DoPreline` | src/Ppu.ts:904-940 | As `PpuModel.DoPreline`. |
| `Video.Ppu.PrelineRegisters` | src/Ppu.ts:919-932 | As `PpuModel.PrelineRegisters`. |
| `Video.Ppu.VisibleBackground` | src/Ppu.ts:948-966 | As `PpuModel.VisibleBackground`. |
| `Video.Ppu.DoVisibleLine` | src/Ppu.ts:942-981 | As `PpuModel.DoVisibleLine`. |
| `Video.Ppu.DoVBlankLine` | src/Ppu.ts:983-998 | As `PpuModel.DoVBlankLine`. |
| `Video.Ppu.IncrementCounters` | src/Ppu.ts:1000-1020 | The counters become `NextCounters` of the old. |
| `Video.Ppu.RunLine` | src/Ppu.ts:1032-1042 | As `PpuModel.RunLine`. |
| `Video.Ppu.Tick` | src/Ppu.ts:1027-1046 | As `PpuModel.Tick`. |
| `Video.Ppu.Dot` | src/Ppu.ts:1029-1045 | The body of `tick`, as `PpuModel.Tick`. |
| `Video.Ppu.AcknowledgeFrame` | src/Ppu.ts:1048-1060 | As `PpuModel.AcknowledgeFrame`. |
| `PpuFacts.ControlDecodesEveryBit` | src/Ppu.ts:457-470 | The PPUCTRL fields put back together give the written byte. |
| `PpuFacts.MaskDecodesEveryBit` | src/Ppu.ts:471-485 | The PPUMASK flags put back together give the written byte. |
| `PpuFacts.StatusRead` | src/Ppu.ts:409-426 | PPUSTATUS: bits 0-4 echo the last write, then overflow, sprite-zero hit and vblank (hidden on dot 2 of line 241). The read clears vblank and the toggle and nothing else. |
| `PpuFacts.ControlWriteSetsNameTableBits` | src/Ppu.ts:457-470 | PPUCTRL changes only bits 10-11 of `t` and leaves `v`. |
| `PpuFacts.ControlTFields` | src/Ppu.ts:469 | The name table bits of `t` are replaced, the rest kept. |
| `PpuFacts.ScrollPairT` | src/Ppu.ts:495-510 | Two PPUSCROLL updates set coarse X, fine Y and coarse Y, keeping the name table bits and bit 15. |
| `PpuFacts.ScrollFirstPack` | src/Ppu.ts:502 | The first byte replaces coarse X. |
| `PpuFacts.ScrollSecondPack` | src/Ppu.ts:506-507 | The second byte replaces fine Y and coarse Y. |
| `PpuFacts.FineYReplaced` | src/Ppu.ts:506 | The fine Y update replaces one field. |
| `PpuFacts.CoarseYReplaced` | src/Ppu.ts:507 | The coarse Y update replaces one field. |
| `PpuFacts.ScrollWritePair` | src/Ppu.ts:495-510 | Two scroll writes set coarse and fine X, then fine and coarse Y. `v` is untouched and the toggle ends cleared. |
| `PpuFacts.AddressWritePair` | src/Ppu.ts:511-520 | Two address writes load `v` with the 14-bit address they spell and clear the toggle. |
| `PpuFacts.AddressPairT` | src/Ppu.ts:511-520 | The two PPUADDR updates of `t` spell the address. |
| `PpuFacts.BufferedRead` | src/Ppu.ts:429-445 | A PPUDATA read returns the buffered byte, buffers the byte at `v`, and moves `v`; at the palette it throws and changes nothing. |
| `PpuFacts.AddressLoads` | src/Ppu.ts:511-520 | Two address writes point `v` at the address they spell and leave VRAM alone. |
| `PpuFacts.DataPortRoundTrip` | src/Ppu.ts:429-529 | Set the address, write PPUDATA, set it again, read twice: the second read returns the byte written. |
| `PpuFacts.WriteThenReload` | src/Ppu.ts:511-529 | After address, write and address again, `v` points at the written byte. |
| `PpuFacts.ReadTwice` | src/Ppu.ts:429-445 | Two reads: the second returns what the first buffered. |
| `PpuFacts.CoarseXStep` | src/Ppu.ts:539-553 | Coarse X steps by one, or wraps at 31 and flips the horizontal name table; the other fields stay. |
| `PpuFacts.YStep` | src/Ppu.ts:560-587 | Fine Y steps, or wraps into coarse Y: 29 wraps and flips the vertical table, 31 wraps without flip, others step; the other fields stay. |
| `PpuFacts.NameTableYFlipped` | src/Ppu.ts:577 | `^ 0x800` flips the vertical name table field. |
| `PpuFacts.HorizontalCopyFields` | src/Ppu.ts:588-591 | Dot 257 copies coarse X and the horizontal table from `t`, keeping the other fields of `v`. |
| `PpuFacts.VerticalCopyFields` | src/Ppu.ts:923-926 | The pre-render copy takes coarse Y, the vertical table and fine Y from `t`. |
| `PpuFacts.CounterSteps` | src/Ppu.ts:1000-1020 | With `f` at 0 the counters step through all 341 x 262 dots one at a time and wrap. The odd-frame skip never fires. |
| `PpuFacts.MirroredRow` | src/Ppu.ts:39-63 | A horizontally flipped row is the plain row reversed. |
| `PpuFacts.HitsPrefix` | src/Ppu.ts:779-809 | The hits below `m` are a prefix of those below `n`. |
| `PpuFacts.HitsPastEight` | src/Ppu.ts:790-794 | A sprite on the scanline after eight hits is a ninth. |
| `PpuFacts.HitsComplete` | src/Ppu.ts:779-809 | Every sprite below `n` on the scanline is a hit. |
| `PpuFacts.SpriteSelection` | src/Ppu.ts:779-809 | At most eight sprites, all on the scanline, in OAM order, none skipped, fewer only when there are no more; overflow exactly at a ninth. |
| `PpuFacts.SlotsCover` | src/Ppu.ts:779-809 | The filled slots name every sprite on the scanline or are full with earlier ones. |
| `PpuFacts.SlotsFilled` | src/Ppu.ts:779-809 | The slots hold the first hits, up to eight, in order. |
| `PpuFacts.Evaluated` | src/Ppu.ts:779-809 | What each slot holds after evaluation. |
| `PpuFacts.SpritePixelFirstOpaque` | src/Ppu.ts:638-658 | A hit names the first slot with an opaque pixel at the column; no hit means all are transparent. |
| `PpuFacts.PixelPriority` | src/Ppu.ts:701-721 | Two transparent pixels give 0; a single opaque pixel wins; with both opaque the sprite's priority bit decides, and sprite 0 left of column 255 raises the hit. |
| `PpuFacts.TickKeepsGood` | src/Ppu.ts:1027-1046 | Every tick keeps the invariant. |
| `PpuFacts.RunLineKeepsGood` | src/Ppu.ts:1032-1042 | A line's work keeps the invariant and counters, leaving an interrupt only on dot 1 of line 241. |
| `PpuFacts.RenderLineKeepsGood` | src/Ppu.ts:1034-1039 | The rendering lines keep the invariant and leave no interrupt. |
| `PpuFacts.VBlankNmi` | src/Ppu.ts:983-998 | A tick raises the NMI exactly on dot 1 of line 241 with NMI output enabled, and never an IRQ. |
| `PpuFacts.TickFailsOnlyInFourScreen` | src/Ppu.ts:1027-1046 | A tick can fail only in four-screen mode. |
| `PpuFacts.ResetClears` | src/Ppu.ts:365-403 | `reset` keeps the invariant, zeroes VRAM at its sizes, keeps the mapper, restarts at dot 0 of line 261, and a status read then gives 0. |
| `PpuFacts.AcknowledgeClearsFlags` | src/Ppu.ts:1048-1060 | Acknowledging consumes the frame and, with sprites shown, clears just the overflow and sprite-zero status bits. A second acknowledgement changes nothing. |

## Left out

- The APU (`Apu.ts` is not part of this model): a read of 0x4015 returns a fixed status byte carried on the bus, and writes to 0x4015 and 0x4017 are dropped.
- MMC3 (mapper number 3, `Mmc3.ts` is not part of this model): `MapperKindOf` answers `UnmodelledMapper` for it.
- The RGBA frame buffers, the `COLORS` table and `renderingMode` (normal or split): `renderPixel` is modelled up to the palette address of the pixel, which the model keeps instead of the colour.
- The debug views `resetBuffers`, `parsePatternTable`, `getPatternTables` and `getOamTable`: they only fill display buffers.
- The console and UI driver (`Console.ts`, `index.ts`, the keyboard controller): the 3:1 interleaving of PPU and CPU ticks, frame pacing and key events lie outside the core.
- `loadRom` and the CPU constructor's creation of the `Rom` and `Ppu`: the model's `Cpu` is built over a given PPU state, joypad and APU byte.
- `loadJson`/`saveJson` (empty in the source) and every `console.log`/`console.warn`.
- Processor.Cpu: the PPU and the joypad are held by value inside the CPU rather than shared by reference, so aliasing between the CPU's and the console's view of them is not modelled. The registers and flags are grouped into records, and the tick's scratch fields (`instrCode`, `instrMode`, `address`, `tmpCycles`) are locals.
- Mappers.Read and Mappers.Write: they require an address below 0x2000 or from 0x6000 on. Every caller passes such an address; between them the source would index the SRAM array with a negative key.
- CpuModel.ReadByte: where a read yields `undefined`, the model stops the step with `Err(UndefinedRead)`. The source would carry `undefined` (or the NaN it turns into) through later arithmetic until a `&` or `|` makes it 0. Examples are an LDA of the ninth joypad read and a 0x2004 read with the OAM address at 256 or more. `Wrappers.Defined` makes the same cut.
- CpuRam.CpuMemory.Save / CpuRam.CpuMemory.Load: `Save` returns snapshots of the three arrays, where the source returns the live arrays, so a caller's later aliasing of RAM is not modelled. `Load` requires the exact lengths 256, 256 and 1536. The source copies arrays of any length, where reads past a short array yield `undefined` and writes past it are dropped.
- Mappers.LastBankPage: the source's `bankNbr / 16 - 1` is a fractional bank index when the PRG is not a whole number of 16 KiB banks. The model only carries its exact product with 16, `bankNbr - 16`, which is all `switchBank` uses.
- PpuModel.FetchBackground: a name table byte read as `undefined` (the upper tables in four-screen mode) makes the pattern address NaN, and the source throws on the pattern read; the model returns `Err` at that point.
- PpuFacts.DataPortRoundTrip: it is stated for addresses below 0x3ee0, because the second read one step further on must stay below the palette range, where the source throws.
- The handler table's missing BVS slot, the mode table's missing INDIRECT slot, the IRQ test `i !== 0` and BRK's `| 0x18` are modelled as written; `CommonFacts.HandlerTableShift`, `CpuFacts.IrqService` and `CpuFacts.BrkThenRti` state their consequences.
