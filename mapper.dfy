/** Cartridge mappers: address dispatch to CHR, SRAM or PRG, and the bank-switching registers of
    UxROM and MMC1 (src/mappers/Mapper.ts, Nrom.ts, UxRom.ts, Mmc1.ts). The three variants the
    model covers share one class, told apart by `kind`. */
module Mappers {
  import opened Wrappers
  import opened Bits
  import opened Mirroring
  import opened Banking
  import opened Cartridge

  datatype MapperKind = Nrom | Mmc1 | UxRom

  const SRAM_SIZE: nat := 0x2000
  const CHR_WINDOW: nat := 0x2000
  const PRG_WINDOW: nat := 0x8000

  /** Mirroring selected by the low two bits of the MMC1 control register. */
  const MMC1_MIRRORS: seq<MirrorType> := [SINGLE_SCREEN, SINGLE_SCREEN_2, VERTICAL, HORIZONTAL]

  /** The mapper a header's mapper number selects; number 3 (MMC3) exists in the emulator but
      not in this model, and any higher number has no mapper at all. */
  function MapperKindOf(id: nat): (r: Result<MapperKind>)
    ensures r.Ok? <==> id <= 2
    ensures id >= 4 ==> r == Err(InvalidMapper(id))
  {
    if id == 0 then Ok(Nrom)
    else if id == 1 then Ok(Mmc1)
    else if id == 2 then Ok(UxRom)
    else if id == 3 then Err(UnmodelledMapper(id))
    else Err(InvalidMapper(id))
  }

  /** Everything a mapper's writes can change, as one value. */
  datatype MapperState = MapperState(
    chrData: seq<byte>, chrPointers: seq<byte>, chrFixed: bool,
    prgData: seq<byte>, prgPointers: seq<byte>, prgFixed: bool, swapMode: int,
    sram: seq<byte>, mirrorType: MirrorType,
    buffer: int, bufferIndex: int, conf: int, prgBankMode: int, chrBankMode: int)

  /** The first page of the upper PRG window after `switchBank(0x4000, 0x8000, bankNbr / 16 - 1)`:
      the bank index is a JavaScript division, fractional when the PRG is not a whole number of
      16 KiB banks, and `switchBank` multiplies it by the 16 pages of the window, which gives
      `bankNbr - 16` exactly. For whole banks this is the first page of the last bank. */
  function LastBankPage(bankNbr: nat): (r: int)
    ensures bankNbr % 16 == 0 ==> r == 16 * (bankNbr / 16 - 1)
    ensures r + 16 == bankNbr
  {
    bankNbr - 16
  }

  /** MMC1 `control`: decodes the mode bits of the control register. */
  function Control(s: MapperState, value: nat): (r: MapperState)
  {
    var prgMode := (value / 4) % 4;
    var chrMode := (value / 16) % 2;
    s.(conf := value, prgBankMode := prgMode, chrBankMode := chrMode,
       mirrorType := MMC1_MIRRORS[value % 4],
       swapMode := if prgMode == 2 then 0 else if prgMode == 3 then 1 else s.swapMode,
       prgFixed := prgMode == 0 || prgMode == 1,
       chrFixed := chrMode == 0)
  }

  /** The PRG pointer table after a write to the MMC1 PRG bank register. */
  function PrgSelect(ptrs: seq<byte>, fixed: bool, swapMode: int, bankNbr: nat, value: int): (r: seq<byte>)
    ensures |r| == |ptrs|
  {
    if fixed then SwitchedPointers(ptrs, 0, 0x8000, value / 2)
    else if swapMode == 0 then SwitchedPointers(SwitchedPointers(ptrs, 0, 0x4000, 0), 0x4000, 0x8000, value)
    else SwitchedPointersFrom(SwitchedPointers(ptrs, 0, 0x4000, value), 0x4000, 0x8000, LastBankPage(bankNbr))
  }

  /** The effect of the fifth serial write: the assembled value goes to the register the
      address selects. */
  function Mmc1Register(s: MapperState, bankNbr: nat, address: nat, value: nat): (r: MapperState)
    ensures value < 32 ==> r.conf == if address < 0xa000 then value else s.conf
    ensures r.buffer == s.buffer
  {
    if address < 0xa000 then Control(s, value)
    else if address < 0xc000 then
      if !s.chrFixed then s.(chrPointers := SwitchedPointers(s.chrPointers, 0, 0x1000, value))
      else s.(chrPointers := SwitchedPointers(s.chrPointers, 0, 0x2000, value / 2))
    else if address < 0xe000 then
      if !s.chrFixed then s.(chrPointers := SwitchedPointers(s.chrPointers, 0x1000, 0x2000, value)) else s
    else s.(prgPointers := PrgSelect(s.prgPointers, s.prgFixed, s.swapMode, bankNbr, value))
  }

  /** The serial port: the buffer moves right one bit and the written bit 0 enters at bit 4. */
  function ShiftIn(buffer: int, value: byte): int
  {
    buffer / 2 + (value % 2) * 16
  }

  /** The serial port holds at most five bits and the control register five bits. */
  predicate SerialOk(s: MapperState)
  {
    0 <= s.conf < 32 && 0 <= s.buffer < 32
  }

  /** An MMC1 write to 0x8000-0xFFFF. */
  function Mmc1Write(s: MapperState, bankNbr: nat, address: nat, value: byte): (r: MapperState)
    requires SerialOk(s)
    ensures SerialOk(r)
  {
    BitwiseBound(s.conf, 0x0c, 5);
    if value >= 0x80 then
      Control(s.(buffer := 0x10, bufferIndex := 0), Or(s.conf, 0x0c))
    else
      var buffer := ShiftIn(s.buffer, value);
      if s.bufferIndex + 1 == 5 then
        Mmc1Register(s.(buffer := buffer, bufferIndex := 5), bankNbr, address, buffer)
          .(buffer := 0x10, bufferIndex := 0)
      else s.(buffer := buffer, bufferIndex := s.bufferIndex + 1)
  }

  /** A mapper write at an address a caller can pass (CHR below 0x2000, SRAM and PRG from 0x6000). */
  function Write(kind: MapperKind, bankNbr: nat, s: MapperState, address: nat, value: byte): (r: MapperState)
    requires address < 0x2000 || 0x6000 <= address
    requires |s.sram| == SRAM_SIZE && SerialOk(s)
  {
    if address < 0x2000 then s.(chrData := WriteAt(s.chrData, s.chrPointers, address, value))
    else if address < 0x8000 then s.(sram := s.sram[address - 0x6000 := value])
    else match kind
      case Nrom => s
      case UxRom => s.(prgPointers := SwitchedPointers(s.prgPointers, 0, 0x4000, value % 16))
      case Mmc1 => Mmc1Write(s, bankNbr, address, value)
  }

  /** A mapper read: CHR below 0x2000, SRAM below 0x8000, PRG above. */
  function Read(s: MapperState, address: nat): (r: Option<byte>)
    requires address < 0x2000 || 0x6000 <= address
    requires |s.sram| == SRAM_SIZE
  {
    if address < 0x2000 then ReadAt(s.chrData, s.chrPointers, address)
    else if address < 0x8000 then Some(s.sram[address - 0x6000])
    else ReadAt(s.prgData, s.prgPointers, address - 0x8000)
  }

  class Mapper {
    const kind: MapperKind
    const chr: BankMemory
    const prg: BankMemory
    const sram: array<byte>
    var mirrorType: MirrorType

    // The MMC1 serial port and control register; the other variants leave them at their
    // initial values.
    var buffer: int
    var bufferIndex: int
    var conf: int
    var prgBankMode: int
    var chrBankMode: int

    ghost const Repr: set<object>

    ghost predicate Valid()
      reads this, chr, prg
    {
      Wired() && 0 <= conf < 32 && 0 <= buffer < 32 && 0 <= bufferIndex < 5
    }

    /** The fixed shape of the object graph: distinct buffers and the two bank windows. */
    ghost predicate Wired()
      reads this, chr, prg
    {
      && Repr == {this, sram} + chr.Repr + prg.Repr
      && chr.Valid() && prg.Valid()
      && chr.Repr !! prg.Repr && this !in chr.Repr + prg.Repr && sram !in chr.Repr + prg.Repr
      && sram.Length == SRAM_SIZE
      && chr.windowSize == CHR_WINDOW && prg.windowSize == PRG_WINDOW
      && chr.pointers.Length == CHR_WINDOW / PAGE_SIZE && prg.pointers.Length == PRG_WINDOW / PAGE_SIZE
    }

    ghost function State(): MapperState
      reads this, chr, prg, chr.data, chr.pointers, prg.data, prg.pointers, sram
    {
      MapperState(chr.data[..], chr.pointers[..], chr.fixed,
                  prg.data[..], prg.pointers[..], prg.fixed, prg.swapMode,
                  sram[..], mirrorType, buffer, bufferIndex, conf, prgBankMode, chrBankMode)
    }

    /** Builds the mapper for a parsed cartridge: CHR behind an 8 KiB window, PRG behind a
        32 KiB window whose upper half shows the last 16 KiB bank, SRAM filled with 0xff. */
    constructor(kind: MapperKind, rom: RomImage)
      ensures Valid() && fresh(Repr)
      ensures this.kind == kind && mirrorType == rom.mirrorType
      ensures State() == MapperState(
        rom.chr, IdentityPointers(8), true,
        rom.prg, SwitchedPointersFrom(IdentityPointers(32), 0x4000, 0x8000, LastBankPage(|rom.prg| / PAGE_SIZE)), false, 0,
        seq(SRAM_SIZE, _ => 0xff), rom.mirrorType, 0x10, 0, 0x0c, 0, 0)
    {
      var chrData := new byte[|rom.chr|](i requires 0 <= i < |rom.chr| => rom.chr[i]);
      var prgData := new byte[|rom.prg|](i requires 0 <= i < |rom.prg| => rom.prg[i]);
      var c := new BankMemory(chrData, CHR_WINDOW, true);
      var p := new BankMemory(prgData, PRG_WINDOW, false);
      var s := new byte[SRAM_SIZE](_ => 0xff);
      this.kind := kind;
      this.chr := c;
      this.prg := p;
      this.sram := s;
      this.mirrorType := rom.mirrorType;
      this.buffer := 0x10;
      this.bufferIndex := 0;
      this.conf := 0x0c;
      this.prgBankMode := 0;
      this.chrBankMode := 0;
      this.Repr := {this, s} + c.Repr + p.Repr;
      new;
      assert chrData[..] == rom.chr;
      assert prgData[..] == rom.prg;
      prg.SwitchBankFrom(0x4000, 0x8000, LastBankPage(prg.bankNbr));
    }

    method Read8(address: nat) returns (r: Option<byte>)
      requires Valid()
      requires address < 0x2000 || 0x6000 <= address
      ensures r == Read(State(), address)
    {
      if address < 0x2000 {
        r := chr.Read8(address);
      } else if address < 0x8000 {
        r := Some(sram[address - 0x6000]);
      } else {
        r := prg.Read8(address - 0x8000);
      }
    }

    method Write8(address: nat, value: byte)
      requires Valid()
      requires address < 0x2000 || 0x6000 <= address
      modifies Repr
      ensures Valid()
      ensures SerialOk(old(State())) && State() == Write(kind, prg.bankNbr, old(State()), address, value)
    {
      if address < 0x2000 {
        chr.Write8(address, value);
      } else if address < 0x8000 {
        sram[address - 0x6000] := value;
      } else if kind == UxRom {
        prg.SwitchBank(0, 0x4000, value % 16);
      } else if kind == Mmc1 {
        Mmc1Write8(address, value);
      }
    }

    method Mmc1Write8(address: nat, value: byte)
      requires Valid() && 0x8000 <= address
      modifies this, chr, prg, prg.pointers, chr.pointers
      ensures Valid()
      ensures SerialOk(old(State())) && State() == Mmc1Write(old(State()), prg.bankNbr, address, value)
    {
      if value >= 0x80 {
        buffer := 0x10;
        bufferIndex := 0;
        BitwiseBound(conf, 0x0c, 5);
        ControlRegister(Or(conf, 0x0c));
      } else {
        buffer := ShiftIn(buffer, value);
        bufferIndex := bufferIndex + 1;
        if bufferIndex == 5 {
          CommitRegister(address, buffer);
          buffer := 0x10;
          bufferIndex := 0;
        }
      }
    }

    /** The fifth serial write: the five bits go to the register the address selects. */
    method CommitRegister(address: nat, v: nat)
      requires Wired() && conf < 32 && v < 32
      modifies this, chr, prg, prg.pointers, chr.pointers
      ensures Wired() && conf < 32
      ensures buffer == old(buffer) && bufferIndex == old(bufferIndex)
      ensures State() == Mmc1Register(old(State()), prg.bankNbr, address, v)
    {
      if address < 0xa000 {
        ControlRegister(v);
      } else if address < 0xc000 {
        if !chr.fixed {
          chr.SwitchBank(0, 0x1000, v);
        } else {
          chr.SwitchBank(0, 0x2000, v / 2);
        }
      } else if address < 0xe000 {
        if !chr.fixed {
          chr.SwitchBank(0x1000, 0x2000, v);
        }
      } else {
        if prg.fixed {
          prg.SwitchBank(0, 0x8000, v / 2);
        } else if prg.swapMode == 0 {
          prg.SwitchBank(0, 0x4000, 0);
          prg.SwitchBank(0x4000, 0x8000, v);
        } else {
          prg.SwitchBank(0, 0x4000, v);
          prg.SwitchBankFrom(0x4000, 0x8000, LastBankPage(prg.bankNbr));
        }
      }
    }

    method ControlRegister(value: nat)
      requires Wired() && value < 32
      modifies this, chr, prg
      ensures Wired() && conf < 32
      ensures buffer == old(buffer) && bufferIndex == old(bufferIndex)
      ensures State() == Control(old(State()), value)
    {
      conf := value;
      prgBankMode := (value / 4) % 4;
      chrBankMode := (value / 16) % 2;
      mirrorType := MMC1_MIRRORS[value % 4];
      if prgBankMode == 2 {
        prg.swapMode := 0;
      }
      if prgBankMode == 3 {
        prg.swapMode := 1;
      }
      prg.fixed := prgBankMode == 0 || prgBankMode == 1;
      chr.fixed := chrBankMode == 0;
    }

    /** The per-cycle hook, a no-op for these mappers: it never requests an interrupt. */
    method Tick() returns (irq: bool)
      ensures !irq
    {
      irq := false;
    }
  }
}

/** Properties of the mapper model. */
module MapperFacts {
  import opened Wrappers
  import opened Bits
  import opened Mirroring
  import opened Banking
  import opened Mappers

  /** With a single 16 KiB PRG bank, the constructor's table makes 0xC000-0xFFFF mirror
      0x8000-0xBFFF. */
  lemma SingleBankMirrors(prg: seq<byte>, address: nat)
    requires |prg| == 0x4000 && address < 0x4000
    ensures var ptrs := SwitchedPointersFrom(IdentityPointers(32), 0x4000, 0x8000, LastBankPage(|prg| / PAGE_SIZE));
      ReadAt(prg, ptrs, address) == ReadAt(prg, ptrs, address + 0x4000) && ReadAt(prg, ptrs, address).Some?
  {
    var ptrs := SwitchedPointersFrom(IdentityPointers(32), 0x4000, 0x8000, LastBankPage(|prg| / PAGE_SIZE));
    var p := address / PAGE_SIZE;
    assert (address + 0x4000) / PAGE_SIZE == p + 16;
    assert ptrs[p] == p && ptrs[p + 16] == p;
  }

  /** The constructor points the upper PRG half at the last bank and leaves the lower half on
      the identity mapping. */
  lemma ConstructorUpperHalf(bankNbr: nat, i: nat)
    requires i < 32
    ensures SwitchedPointersFrom(IdentityPointers(32), 0x4000, 0x8000, LastBankPage(bankNbr))[i]
      == if i < 16 then i else ToUint8(LastBankPage(bankNbr) + (i - 16))
  {
  }

  /** The constructor's upper PRG half shows the last 16 KiB of the PRG data, whether or not
      the data is a whole number of 16 KiB banks (as long as it is whole 1 KiB pages and the
      page numbers fit the byte-sized pointers). */
  lemma UpperHalfShowsLastBytes(prg: seq<byte>, k: nat)
    requires 0x4000 <= |prg| < 256 * PAGE_SIZE && |prg| % PAGE_SIZE == 0 && k < 0x4000
    ensures var ptrs := SwitchedPointersFrom(IdentityPointers(32), 0x4000, 0x8000, LastBankPage(|prg| / PAGE_SIZE));
      ReadAt(prg, ptrs, 0x4000 + k) == Some(prg[|prg| - 0x4000 + k])
  {
    var bankNbr := |prg| / PAGE_SIZE;
    var ptrs := SwitchedPointersFrom(IdentityPointers(32), 0x4000, 0x8000, LastBankPage(bankNbr));
    var p := (0x4000 + k) / PAGE_SIZE;
    assert p == 16 + k / PAGE_SIZE && (0x4000 + k) % PAGE_SIZE == k % PAGE_SIZE;
    ConstructorUpperHalf(bankNbr, p);
    assert ptrs[p] == bankNbr - 16 + k / PAGE_SIZE;
    assert |prg| == bankNbr * PAGE_SIZE;
    assert ptrs[p] * PAGE_SIZE + k % PAGE_SIZE == |prg| - 0x4000 + k;
  }

  /** NROM ignores writes to its PRG range. */
  lemma NromIgnoresPrgWrites(s: MapperState, bankNbr: nat, address: nat, value: byte)
    requires 0x8000 <= address && |s.sram| == SRAM_SIZE && SerialOk(s)
    ensures Write(Nrom, bankNbr, s, address, value) == s
  {
  }

  /** A UxROM write to the PRG range puts bank `value & 0xf` in the lower 16 KiB and nothing else. */
  lemma UxRomSelectsLowerBank(s: MapperState, bankNbr: nat, address: nat, value: byte)
    requires 0x8000 <= address && |s.sram| == SRAM_SIZE && SerialOk(s) && |s.prgPointers| == 32
    ensures var r := Write(UxRom, bankNbr, s, address, value);
      r == s.(prgPointers := r.prgPointers)
      && (forall i :: 0 <= i < 16 ==> r.prgPointers[i] == (value % 16) * 16 + i)
      && r.prgPointers[16..] == s.prgPointers[16..]
  {
    var r := Write(UxRom, bankNbr, s, address, value);
    forall i | 0 <= i < 16 ensures r.prgPointers[i] == (value % 16) * 16 + i {
      assert r.prgPointers[i] == ToUint8((value % 16) * 16 + i);
    }
  }

  /** Below 0x2000 and in SRAM, a write reads back (unless a CHR pointer leads outside the
      buffer), leaves the PRG mapping and the MMC1 serial port alone. */
  lemma LowWritesReadBack(kind: MapperKind, bankNbr: nat, s: MapperState, address: nat, value: byte)
    requires (address < 0x2000 || 0x6000 <= address < 0x8000) && |s.sram| == SRAM_SIZE && SerialOk(s)
    ensures var r := Write(kind, bankNbr, s, address, value);
      && Read(r, address) == (if Read(s, address).Some? then Some(value) else None)
      && r.prgPointers == s.prgPointers && r.prgData == s.prgData
      && r.buffer == s.buffer && r.bufferIndex == s.bufferIndex
  {
    if address < 0x2000 {
      ReadAfterWrite(s.chrData, s.chrPointers, address, value);
    }
  }

  /** A write with bit 7 set empties the serial port and forces PRG mode 3: the upper half is
      pinned and the lower half switches (prg.fixed false, swapMode 1). */
  lemma Mmc1Reset(s: MapperState, bankNbr: nat, address: nat, value: byte)
    requires 0x8000 <= address && 0x80 <= value && SerialOk(s)
    ensures var r := Mmc1Write(s, bankNbr, address, value);
      r.buffer == 0x10 && r.bufferIndex == 0 && r.prgBankMode == 3
      && !r.prgFixed && r.swapMode == 1
      && r.prgPointers == s.prgPointers && r.chrPointers == s.chrPointers
  {
    PrgModeForced(s.conf);
  }

  /** Setting bits 2 and 3 of the control value selects PRG mode 3. */
  lemma PrgModeForced(conf: nat)
    ensures Or(conf, 0x0c) / 4 % 4 == 3
  {
    var c := Or(conf, 0x0c);
    OrBit(conf, 0x0c, 2);
    OrBit(conf, 0x0c, 3);
    BitIsDivision(0x0c, 2);
    BitIsDivision(0x0c, 3);
    BitIsDivision(c, 2);
    BitIsDivision(c, 3);
    assert (c / 4) % 4 == 3 by {
      assert (c / 4) % 2 == 1 && (c / 8) % 2 == 1;
      assert c / 8 == (c / 4) / 2;
    }
  }

  /** The serial port after a sequence of bit-7-clear writes. */
  function ShiftAll(buffer: int, values: seq<byte>): int
    decreases |values|
  {
    if values == [] then buffer else ShiftAll(ShiftIn(buffer, values[0]), values[1..])
  }

  /** Starting from the reset marker 0x10, five writes assemble the value whose bit k is bit 0
      of the k-th write. */
  lemma {:induction false} FiveWritesAssemble(values: seq<byte>)
    requires |values| == 5
    ensures ShiftAll(0x10, values) ==
      values[0] % 2 + 2 * (values[1] % 2) + 4 * (values[2] % 2) + 8 * (values[3] % 2) + 16 * (values[4] % 2)
  {
    var b1 := ShiftIn(0x10, values[0]);
    var b2 := ShiftIn(b1, values[1]);
    var b3 := ShiftIn(b2, values[2]);
    var b4 := ShiftIn(b3, values[3]);
    var b5 := ShiftIn(b4, values[4]);
    assert ShiftAll(0x10, values) == ShiftAll(b1, values[1..]);
    assert ShiftAll(b1, values[1..]) == ShiftAll(b2, values[2..]);
    assert ShiftAll(b2, values[2..]) == ShiftAll(b3, values[3..]);
    assert ShiftAll(b3, values[3..]) == ShiftAll(b4, values[4..]);
    assert ShiftAll(b4, values[4..]) == ShiftAll(b5, values[5..]) == b5;
  }

  /** Five bit-7-clear writes from a reset serial port hand the assembled value to the register
      the fifth address selects, and leave the port reset; the first four change nothing else. */
  lemma {:induction false} FiveWritesDispatch(s: MapperState, bankNbr: nat, address: nat, values: seq<byte>)
    requires 0x8000 <= address && SerialOk(s) && s.buffer == 0x10 && s.bufferIndex == 0
    requires |values| == 5 && forall k :: 0 <= k < 5 ==> values[k] < 0x80
    ensures var v := values[0] % 2 + 2 * (values[1] % 2) + 4 * (values[2] % 2) + 8 * (values[3] % 2) + 16 * (values[4] % 2);
      var s1 := Mmc1Write(s, bankNbr, address, values[0]);
      var s2 := Mmc1Write(s1, bankNbr, address, values[1]);
      var s3 := Mmc1Write(s2, bankNbr, address, values[2]);
      var s4 := Mmc1Write(s3, bankNbr, address, values[3]);
      && s4 == s.(buffer := s4.buffer, bufferIndex := 4)
      && Mmc1Write(s4, bankNbr, address, values[4])
         == Mmc1Register(s.(buffer := v, bufferIndex := 5), bankNbr, address, v).(buffer := 0x10, bufferIndex := 0)
  {
    FiveWritesAssemble(values);
    var s1 := Mmc1Write(s, bankNbr, address, values[0]);
    var s2 := Mmc1Write(s1, bankNbr, address, values[1]);
    var s3 := Mmc1Write(s2, bankNbr, address, values[2]);
    var s4 := Mmc1Write(s3, bankNbr, address, values[3]);
    var b4 := ShiftIn(ShiftIn(ShiftIn(ShiftIn(0x10, values[0]), values[1]), values[2]), values[3]);
    assert s4 == s.(buffer := b4, bufferIndex := 4);
    assert ShiftAll(0x10, values) == ShiftIn(b4, values[4]) by {
      assert ShiftAll(0x10, values) == ShiftAll(ShiftIn(0x10, values[0]), values[1..]);
      assert values[1..][0] == values[1] && values[1..][1..] == values[2..];
      assert values[2..][0] == values[2] && values[2..][1..] == values[3..];
      assert values[3..][0] == values[3] && values[3..][1..] == values[4..];
      assert values[4..][0] == values[4] && values[4..][1..] == [];
    }
  }

  /** Writes below 0x8000 never touch the serial port. */
  lemma LowWritesKeepSerialPort(kind: MapperKind, bankNbr: nat, s: MapperState, address: nat, value: byte)
    requires (address < 0x2000 || 0x6000 <= address < 0x8000) && |s.sram| == SRAM_SIZE && SerialOk(s)
    ensures Write(kind, bankNbr, s, address, value).buffer == s.buffer
    ensures Write(kind, bankNbr, s, address, value).bufferIndex == s.bufferIndex
  {
  }

  /** Each write keeps the serial port counting from 0 to 4, and the fifth returns it to the
      reset marker. */
  lemma SerialPortCycles(s: MapperState, bankNbr: nat, address: nat, value: byte)
    requires 0x8000 <= address && SerialOk(s) && 0 <= s.bufferIndex < 5 && value < 0x80
    ensures var r := Mmc1Write(s, bankNbr, address, value);
      if s.bufferIndex == 4 then r.buffer == 0x10 && r.bufferIndex == 0
      else r.bufferIndex == s.bufferIndex + 1
  {
  }

  /** The control register: mirroring from the low two bits, PRG 32 KiB mode for modes 0 and
      1, CHR 8 KiB mode for CHR mode 0, and the PRG swap mode only in modes 2 and 3. */
  lemma ControlDecodes(s: MapperState, value: nat)
    requires value < 32
    ensures var r := Control(s, value);
      && r.mirrorType == [SINGLE_SCREEN, SINGLE_SCREEN_2, VERTICAL, HORIZONTAL][value % 4]
      && (r.prgFixed <==> r.prgBankMode <= 1) && (r.chrFixed <==> r.chrBankMode == 0)
      && (r.prgBankMode <= 1 ==> r.swapMode == s.swapMode)
      && (r.prgBankMode >= 2 ==> r.swapMode == r.prgBankMode - 2)
      && r.prgPointers == s.prgPointers && r.chrPointers == s.chrPointers
      && r.prgBankMode == (value / 4) % 4 && r.chrBankMode == value / 16
  {
  }

  /** The three PRG banking modes. */
  lemma PrgSelectModes(ptrs: seq<byte>, fixed: bool, swapMode: int, bankNbr: nat, value: int, i: nat)
    requires |ptrs| == 32 && i < 32
    ensures var r := PrgSelect(ptrs, fixed, swapMode, bankNbr, value);
      if fixed then r[i] == ToUint8((value / 2) * 32 + i)
      else if swapMode == 0 then r[i] == (if i < 16 then i else ToUint8(value * 16 + (i - 16)))
      else r[i] == (if i < 16 then ToUint8(value * 16 + i) else ToUint8(LastBankPage(bankNbr) + (i - 16)))
  {
  }

  /** CHR bank 1 is ignored in 8 KiB mode; bank 0 switches 4 KiB, or all 8 KiB with `value >> 1`. */
  lemma ChrSelectModes(s: MapperState, bankNbr: nat, value: nat, i: nat)
    requires |s.chrPointers| == 8 && i < 8
    ensures s.chrFixed ==> Mmc1Register(s, bankNbr, 0xc000, value) == s
    ensures var r := Mmc1Register(s, bankNbr, 0xa000, value);
      r == s.(chrPointers := r.chrPointers)
      && r.chrPointers[i] == if s.chrFixed then ToUint8((value / 2) * 8 + i)
                             else if i < 4 then ToUint8(value * 4 + i) else s.chrPointers[i]
  {
  }
}
