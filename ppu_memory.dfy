/** The PPU's address space (VRAM): the mirrored name tables, the palette table, the sprite
    attribute memory (OAM) and the cartridge's CHR memory behind the mapper (src/PpuMemory.ts). */
module VideoMemory {
  import opened Wrappers
  import opened Bits
  import opened Mirroring
  import opened Mappers

  const NAME_TABLE_SIZE: nat := 2048
  const PALETTE_SIZE: nat := 32
  const OAM_SIZE: nat := 256

  /** For each mirroring mode, the physical 1 KiB table each of the four logical name tables
      (0x2000, 0x2400, 0x2800, 0x2c00) shows. */
  const NAME_TABLE_MIRRORS: seq<seq<nat>> :=
    [[0, 0, 1, 1], [0, 1, 0, 1], [0, 0, 0, 0], [1, 1, 1, 1], [0, 1, 2, 3]]

  /** A Uint8Array read: `undefined` (None) past the end. */
  function Lookup(data: seq<byte>, index: nat): (r: Option<byte>)
    ensures r.Some? <==> index < |data|
    ensures r.Some? ==> r.value == data[index]
  {
    if index < |data| then Some(data[index]) else None
  }

  /** A Uint8Array store: an index past the end drops the write. */
  function Store(data: seq<byte>, index: nat, value: byte): (r: seq<byte>)
    ensures |r| == |data|
    ensures forall k :: 0 <= k < |r| ==> r[k] == if k == index then value else data[k]
  {
    if index < |data| then data[index := value] else data
  }

  /** The index into the name table buffer an address resolves to: the address is folded
      into 0x000-0xfff, its 1 KiB quarter picks the physical table, the rest is the offset. */
  function Resolve(mode: MirrorType, address: nat): (r: nat)
    ensures r % 0x400 == address % 0x1000 % 0x400
    ensures r < if mode == QUADRUPLE_SCREEN then 0x1000 else 0x800
  {
    var a := address % 0x1000;
    NAME_TABLE_MIRRORS[mode][a / 0x400] * 0x400 + a % 0x400
  }

  /** The palette byte an address resolves to: the address is folded into 32 bytes, and the
      first color of each sprite palette (0x10, 0x14, 0x18, 0x1c) is the one of the matching
      background palette. */
  function PaletteIndex(address: nat): (r: nat)
    ensures r < 32 && (r < 16 || r % 4 != 0)
    ensures r == address % 32 || r + 16 == address % 32
  {
    var a := address % 32;
    if a % 4 == 0 && a >= 16 then a - 16 else a
  }

  /** The VRAM's contents; `kind` and `bankNbr` are the mapper's fixed variant and PRG bank
      count, which decide what a CHR write does. */
  datatype VramState = VramState(names: seq<byte>, palette: seq<byte>, oam: seq<byte>, mapper: MapperState,
                                 kind: MapperKind, bankNbr: nat)

  /** What `read8` yields: CHR through the mapper, a name table byte, or an error for the
      palette range 0x3f00-0x3fff, where the palette byte is looked up but never returned. */
  function VramRead(s: VramState, address: nat): (r: Result<Option<byte>>)
    requires |s.mapper.sram| == SRAM_SIZE
    ensures r.Err? <==> address % 0x4000 >= 0x3f00
    ensures r.Err? ==> r.fault == UnknownPpuAddress(address % 0x4000)
  {
    var a := address % 0x4000;
    if a < 0x2000 then Ok(Mappers.Read(s.mapper, a))
    else if a < 0x3f00 then Ok(Lookup(s.names, Resolve(s.mapper.mirrorType, a)))
    else Err(UnknownPpuAddress(a))
  }

  /** The state after `write8`: CHR through the mapper, a name table byte, or a palette byte. */
  function VramWrite(s: VramState, address: nat, value: byte): (r: VramState)
    requires |s.mapper.sram| == SRAM_SIZE && SerialOk(s.mapper)
    ensures r.oam == s.oam && |r.names| == |s.names| && |r.palette| == |s.palette|
    ensures r.kind == s.kind && r.bankNbr == s.bankNbr && SerialOk(r.mapper) && |r.mapper.sram| == SRAM_SIZE
  {
    var a := address % 0x4000;
    if a < 0x2000 then s.(mapper := Mappers.Write(s.kind, s.bankNbr, s.mapper, a, value))
    else if a < 0x3f00 then s.(names := Store(s.names, Resolve(s.mapper.mirrorType, a), value))
    else s.(palette := Store(s.palette, PaletteIndex(a), value))
  }

  /** The 2 KiB of name table memory the console holds, viewed through a mirroring mode. */
  class NameTable {
    var data: array<byte>

    constructor()
      ensures fresh(data) && data[..] == seq(NAME_TABLE_SIZE, _ => 0)
    {
      data := new byte[NAME_TABLE_SIZE](_ => 0);
    }

    method Flush()
      modifies data
      ensures data[..] == seq(data.Length, _ => 0)
    {
      forall k | 0 <= k < data.Length {
        data[k] := 0;
      }
    }

    /** The live buffer itself, not a copy. */
    method Save() returns (r: array<byte>)
      ensures r == data
    {
      r := data;
    }

    /** Replaces the buffer by a fresh copy of `saved`, of whatever length it has. */
    method Load(saved: array<byte>)
      modifies this
      ensures fresh(data) && data[..] == old(saved[..])
    {
      data := new byte[saved.Length](k requires 0 <= k < saved.Length reads saved => saved[k]);
    }

    method Write8(mode: MirrorType, address: nat, value: byte)
      modifies data
      ensures data[..] == Store(old(data[..]), Resolve(mode, address), value)
    {
      var k := Resolve(mode, address);
      if k < data.Length {
        data[k] := value;
      }
    }

    method Read8(mode: MirrorType, address: nat) returns (r: Option<byte>)
      ensures r == Lookup(data[..], Resolve(mode, address))
    {
      var k := Resolve(mode, address);
      if k < data.Length {
        r := Some(data[k]);
      } else {
        r := None;
      }
    }
  }

  /** The 32 palette bytes: eight palettes of four colors. */
  class PaletteTable {
    var data: array<byte>

    constructor()
      ensures fresh(data) && data[..] == seq(PALETTE_SIZE, _ => 0)
    {
      data := new byte[PALETTE_SIZE](_ => 0);
    }

    method Flush()
      modifies data
      ensures data[..] == seq(data.Length, _ => 0)
    {
      forall k | 0 <= k < data.Length {
        data[k] := 0;
      }
    }

    method Save() returns (r: array<byte>)
      ensures r == data
    {
      r := data;
    }

    method Load(saved: array<byte>)
      modifies this
      ensures fresh(data) && data[..] == old(saved[..])
    {
      data := new byte[saved.Length](k requires 0 <= k < saved.Length reads saved => saved[k]);
    }

    method Write8(address: nat, value: byte)
      modifies data
      ensures data[..] == Store(old(data[..]), PaletteIndex(address), value)
    {
      var k := PaletteIndex(address);
      if k < data.Length {
        data[k] := value;
      }
    }

    method Read8(address: nat) returns (r: Option<byte>)
      ensures r == Lookup(data[..], PaletteIndex(address))
    {
      var k := PaletteIndex(address);
      if k < data.Length {
        r := Some(data[k]);
      } else {
        r := None;
      }
    }
  }

  class PpuMemory {
    const nameTable: NameTable
    const paletteTable: PaletteTable
    const mapper: Mapper
    var oam: array<byte>

    /** Every object the VRAM's state lives in. */
    ghost function Repr(): set<object>
      reads this, nameTable, paletteTable
    {
      {this, nameTable, paletteTable, nameTable.data, paletteTable.data, oam} + mapper.Repr
    }

    ghost predicate Valid()
      reads this, nameTable, paletteTable, mapper, mapper.chr, mapper.prg
    {
      && mapper.Valid()
      && nameTable.data != paletteTable.data && nameTable.data != oam && paletteTable.data != oam
      && {this, nameTable, paletteTable, nameTable.data, paletteTable.data, oam} !! mapper.Repr
    }

    ghost function State(): VramState
      reads this, nameTable, paletteTable, mapper, mapper.chr, mapper.prg, nameTable.data, paletteTable.data, oam,
            mapper.chr.data, mapper.chr.pointers, mapper.prg.data, mapper.prg.pointers, mapper.sram
    {
      VramState(nameTable.data[..], paletteTable.data[..], oam[..], mapper.State(), mapper.kind, mapper.prg.bankNbr)
    }

    /** Zeroed name tables, palette and OAM in front of the given mapper. */
    constructor(mapper: Mapper)
      requires mapper.Valid()
      ensures Valid() && fresh(Repr() - mapper.Repr) && this.mapper == mapper
      ensures State() == VramState(seq(NAME_TABLE_SIZE, _ => 0), seq(PALETTE_SIZE, _ => 0),
                                   seq(OAM_SIZE, _ => 0), mapper.State(), mapper.kind, mapper.prg.bankNbr)
    {
      nameTable := new NameTable();
      paletteTable := new PaletteTable();
      this.mapper := mapper;
      oam := new byte[OAM_SIZE](_ => 0);
    }

    method Flush()
      requires Valid()
      modifies nameTable.data, paletteTable.data, oam
      ensures Valid()
      ensures State() == VramState(seq(nameTable.data.Length, _ => 0), seq(paletteTable.data.Length, _ => 0),
                                   seq(oam.Length, _ => 0), old(State()).mapper, mapper.kind, mapper.prg.bankNbr)
    {
      nameTable.Flush();
      paletteTable.Flush();
      forall k | 0 <= k < oam.Length {
        oam[k] := 0;
      }
    }

    /** The three live buffers (not copies). */
    method Save() returns (names: array<byte>, palette: array<byte>, sprites: array<byte>)
      ensures names == nameTable.data && palette == paletteTable.data && sprites == oam
    {
      names := nameTable.Save();
      palette := paletteTable.Save();
      sprites := oam;
    }

    /** Replaces the three buffers by fresh copies of the saved ones; the mapper is untouched. */
    method Load(names: array<byte>, palette: array<byte>, sprites: array<byte>)
      requires Valid()
      modifies this, nameTable, paletteTable
      ensures Valid() && fresh(nameTable.data) && fresh(paletteTable.data) && fresh(oam)
      ensures State() == old(State()).(names := old(names[..]), palette := old(palette[..]), oam := old(sprites[..]))
    {
      nameTable.Load(names);
      paletteTable.Load(palette);
      oam := new byte[sprites.Length](k requires 0 <= k < sprites.Length reads sprites => sprites[k]);
    }

    method Write8(address: nat, value: byte)
      requires Valid()
      modifies Repr()
      ensures Valid() && Repr() == old(Repr())
      ensures State() == VramWrite(old(State()), address, value)
    {
      var a := address % 0x4000;
      if a < 0x2000 {
        mapper.Write8(a, value);
      } else if a < 0x3f00 {
        nameTable.Write8(mapper.mirrorType, a, value);
      } else {
        paletteTable.Write8(a, value);
      }
    }

    /** A name table read that bypasses the CHR and palette ranges. */
    method ReadNametable(address: nat) returns (r: Option<byte>)
      requires Valid()
      ensures r == Lookup(State().names, Resolve(State().mapper.mirrorType, address % 0x4000))
    {
      r := nameTable.Read8(mapper.mirrorType, address % 0x4000);
    }

    method Read8(address: nat) returns (r: Result<Option<byte>>)
      requires Valid()
      ensures r == VramRead(State(), address)
    {
      var a := address % 0x4000;
      if a < 0x2000 {
        var b := mapper.Read8(a);
        r := Ok(b);
      } else if a < 0x3f00 {
        var b := nameTable.Read8(mapper.mirrorType, a);
        r := Ok(b);
      } else {
        var _ := paletteTable.Read8(a);
        r := Err(UnknownPpuAddress(a));
      }
    }
  }
}

/** Properties of the VRAM model. */
module VideoMemoryFacts {
  import opened Wrappers
  import opened Bits
  import opened Mirroring
  import opened Mappers
  import opened VideoMemory

  /** Horizontal mirroring: 0x2000 and 0x2400 share a table, 0x2800 and 0x2c00 share the
      other one. */
  lemma HorizontalMirroring(address: nat)
    requires 0x2000 <= address < 0x2400
    ensures Resolve(HORIZONTAL, address) == Resolve(HORIZONTAL, address + 0x400)
    ensures Resolve(HORIZONTAL, address + 0x800) == Resolve(HORIZONTAL, address + 0xc00)
    ensures Resolve(HORIZONTAL, address) != Resolve(HORIZONTAL, address + 0x800)
  {
    var o := address - 0x2000;
    assert address % 0x1000 == o;
    assert (address + 0x400) % 0x1000 == o + 0x400;
    assert (address + 0x800) % 0x1000 == o + 0x800;
    assert (address + 0xc00) % 0x1000 == o + 0xc00;
  }

  /** Vertical mirroring: 0x2000 and 0x2800 share a table, 0x2400 and 0x2c00 share the
      other one. */
  lemma VerticalMirroring(address: nat)
    requires 0x2000 <= address < 0x2400
    ensures Resolve(VERTICAL, address) == Resolve(VERTICAL, address + 0x800)
    ensures Resolve(VERTICAL, address + 0x400) == Resolve(VERTICAL, address + 0xc00)
    ensures Resolve(VERTICAL, address) != Resolve(VERTICAL, address + 0x400)
  {
    var o := address - 0x2000;
    assert address % 0x1000 == o;
    assert (address + 0x400) % 0x1000 == o + 0x400;
    assert (address + 0x800) % 0x1000 == o + 0x800;
    assert (address + 0xc00) % 0x1000 == o + 0xc00;
  }

  /** The single-screen modes show one physical table everywhere; four-screen mode maps the
      folded address straight through. */
  lemma SingleAndFourScreen(address: nat)
    ensures Resolve(SINGLE_SCREEN, address) == address % 0x400
    ensures Resolve(SINGLE_SCREEN_2, address) == 0x400 + address % 0x400
    ensures Resolve(QUADRUPLE_SCREEN, address) == address % 0x1000
  {
    var a := address % 0x1000;
    assert a % 0x400 == address % 0x400 by {
      assert address == (address / 0x1000) * 0x1000 + a;
      assert address == ((address / 0x1000) * 4) * 0x400 + a;
    }
    assert a == (a / 0x400) * 0x400 + a % 0x400;
  }

  /** 0x3000-0x3eff mirrors 0x2000-0x2eff in every mode. */
  lemma UpperNameTablesMirror(mode: MirrorType, address: nat)
    ensures Resolve(mode, address + 0x1000) == Resolve(mode, address)
  {
    assert (address + 0x1000) % 0x1000 == address % 0x1000;
  }

  /** In the four two-table modes, a name table write is read back at every address that
      resolves to the same byte, and nothing else changes. */
  lemma NameTableReadAfterWrite(names: seq<byte>, mode: MirrorType, address: nat, other: nat, value: byte)
    requires |names| == NAME_TABLE_SIZE && mode != QUADRUPLE_SCREEN
    ensures Lookup(Store(names, Resolve(mode, address), value), Resolve(mode, other))
         == if Resolve(mode, address) == Resolve(mode, other) then Some(value)
            else Lookup(names, Resolve(mode, other))
  {
  }

  /** Four-screen mode addresses 4 KiB but only 2 KiB exist: the upper two tables read as
      `undefined` and writes to them are dropped. */
  lemma FourScreenUpperTablesMissing(names: seq<byte>, address: nat, value: byte)
    requires |names| == NAME_TABLE_SIZE && address % 0x1000 >= 0x800
    ensures Lookup(names, Resolve(QUADRUPLE_SCREEN, address)) == None
    ensures Store(names, Resolve(QUADRUPLE_SCREEN, address), value) == names
  {
    SingleAndFourScreen(address);
  }

  /** Two palette addresses share a byte exactly when they agree modulo 32, or both are a
      palette's first color and agree modulo 16. */
  lemma PaletteAliasing(a: nat, b: nat)
    ensures PaletteIndex(a) == PaletteIndex(b) <==>
      a % 32 == b % 32 || (a % 4 == 0 && b % 4 == 0 && a % 16 == b % 16)
  {
    FoldInto32(a);
    FoldInto32(b);
    Quarters(a % 32);
    Quarters(b % 32);
  }

  /** A palette offset in its three parts: the half, the palette and the color. */
  lemma Quarters(x: nat)
    requires x < 32
    ensures x == 16 * (x / 16) + 4 * (x % 16 / 4) + x % 4
    ensures x % 16 == 4 * (x % 16 / 4) + x % 4
    ensures x / 16 < 2 && x % 16 / 4 < 4 && x % 4 < 4
  {
    var h, m: int := x / 16, x % 16;
    assert x == 16 * h + m;
    var q, c: int := m / 4, m % 4;
    assert m == 4 * q + c;
    assert c == x % 4 by {
      assert x == 4 * (4 * h + q) + c;
    }
  }

  /** Folding into 32 bytes keeps the residues modulo 4 and 16. */
  lemma FoldInto32(a: nat)
    ensures a % 32 % 4 == a % 4 && a % 32 % 16 == a % 16
  {
    var q := a / 32;
    assert a == q * 32 + a % 32;
    assert a == (q * 8) * 4 + a % 32;
    assert a == (q * 2) * 16 + a % 32;
  }

  /** A palette write is read back at its own address and at its mirror. */
  lemma PaletteReadAfterWrite(palette: seq<byte>, address: nat, other: nat, value: byte)
    requires |palette| == PALETTE_SIZE
    ensures Lookup(Store(palette, PaletteIndex(address), value), PaletteIndex(other))
         == if PaletteIndex(address) == PaletteIndex(other) then Some(value)
            else Lookup(palette, PaletteIndex(other))
  {
  }

  /** Each VRAM write lands in exactly one of the CHR memory, the name tables and the
      palette, chosen by the address folded into 0x0000-0x3fff. */
  lemma WriteTouchesOneRegion(s: VramState, address: nat, value: byte)
    requires |s.mapper.sram| == SRAM_SIZE && SerialOk(s.mapper)
    ensures var r := VramWrite(s, address, value);
      var a := address % 0x4000;
      && (a < 0x2000 ==> r == s.(mapper := Mappers.Write(s.kind, s.bankNbr, s.mapper, a, value)))
      && (0x2000 <= a < 0x3f00 ==>
            r.mapper == s.mapper && r.palette == s.palette
            && r.names == Store(s.names, Resolve(s.mapper.mirrorType, a), value))
      && (0x3f00 <= a ==>
            r.mapper == s.mapper && r.names == s.names
            && r.palette == Store(s.palette, PaletteIndex(a), value))
  {
  }

  /** A name table write through the VRAM is read back through the VRAM at the same address
      (two-table modes). */
  lemma VramNameTableRoundTrip(s: VramState, address: nat, value: byte)
    requires |s.mapper.sram| == SRAM_SIZE && SerialOk(s.mapper) && |s.names| == NAME_TABLE_SIZE
    requires s.mapper.mirrorType != QUADRUPLE_SCREEN
    requires 0x2000 <= address % 0x4000 < 0x3f00
    ensures VramRead(VramWrite(s, address, value), address) == Ok(Some(value))
  {
  }

  /** A palette write through the VRAM is stored, yet reading it back fails. */
  lemma VramPaletteWriteOnly(s: VramState, address: nat, value: byte)
    requires |s.mapper.sram| == SRAM_SIZE && SerialOk(s.mapper) && |s.palette| == PALETTE_SIZE
    requires 0x3f00 <= address % 0x4000
    ensures var r := VramWrite(s, address, value);
      Lookup(r.palette, PaletteIndex(address)) == Some(value)
      && VramRead(r, address) == Err(UnknownPpuAddress(address % 0x4000))
  {
    var a := address % 0x4000;
    PaletteFold(address);
    var r := VramWrite(s, address, value);
    assert r.palette == Store(s.palette, PaletteIndex(address), value);
  }

  /** The palette index ignores the address bits above the 16 KiB VRAM space. */
  lemma PaletteFold(address: nat)
    ensures PaletteIndex(address % 0x4000) == PaletteIndex(address)
  {
    var a := address % 0x4000;
    assert a % 32 == address % 32 by {
      assert address == (address / 0x4000) * 0x4000 + a;
      assert address == ((address / 0x4000) * 512) * 32 + a;
    }
  }
}
