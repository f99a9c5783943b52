/** The picture processing unit as an object (src/Ppu.ts): its registers and flags are fields
    the methods update in place, the VRAM is the PpuMemory it owns, and every method is proved
    to take the state where the matching function of PpuModel says.

    The emulator keeps some forty flat fields; here they are grouped by role into a few record
    fields (the dot counters, the scroll registers, the CPU-facing port, the background fetch,
    the sprite slots, the pixel output), each updated in place as a whole. */
module Video {
  import opened Wrappers
  import opened Common
  import opened Mirroring
  import opened VideoMemory
  import opened Mappers
  import opened PpuModel
  import Bits
  import PpuFacts

  /** The dot, the scanline, their classification and the odd-frame flag. */
  datatype Timing = Timing(cycle: nat, cycleType: CycleType, scanline: nat, scanlineType: ScanLineType, f: bit)

  /** The loopy registers: current and temporary VRAM address, the coarse Y scratch value, fine
      X and the write toggle. */
  datatype Scroll = Scroll(v: nat, t: nat, y: nat, x: nat, w: bit)

  /** What the CPU side sees: the last value written, the vblank flag and the NMI enable, the
      interrupt raised by the last dot, the PPUDATA read buffer and the OAM address. */
  datatype Port = Port(register: byte, nmiOccurred: bit, nmiOutput: bit, interrupt: Option<Interrupt>,
                       bufferedData: Option<byte>, oamAddress: nat, tmpOamAddress: nat)

  /** The background pixels fetched ahead and the bytes of the last tile fetch. */
  datatype TileFetch = TileFetch(backgroundTileBuffer: seq<nat>, lowTileByte: Option<byte>,
                                 highTileByte: Option<byte>, attributeTableByte: nat)

  /** The sprite slots of the current line and the two sprite status flags. */
  datatype SpriteSlots = SpriteSlots(spriteCount: nat, sprites: seq<Sprite>, spriteOverflow: bit, spriteZeroHit: bit)

  /** The last rendered pixel and whether a frame is complete. */
  datatype Output = Output(color: nat, isBackgroundPixel: bool, frameReady: bool)

  /** `readTileRow`: appends the eight pixels of a tile row to `tileData`, or to an emptied
      buffer when `flush` is set. */
  method ReadTileRow(tileData: seq<nat>, attribute: nat, low: Option<byte>, high: Option<byte>,
                     reversed: bool, flush: bool) returns (r: seq<nat>)
    requires attribute % 4 == 0 && attribute < 16
    ensures r == (if flush then [] else tileData) + TileRow(attribute, low, high, reversed)
  {
    r := if flush then [] else tileData;
    ghost var start := r;
    ghost var row := TileRow(attribute, low, high, reversed);
    var tileX := 0;
    while tileX < 8
      invariant 0 <= tileX <= 8
      invariant r == start + row[..tileX]
    {
      var shift := if reversed then tileX else 7 - tileX;
      assert row[..tileX + 1] == row[..tileX] + [row[tileX]];
      r := r + [attribute + Bits.Bit(OrZero(low), shift) + 2 * Bits.Bit(OrZero(high), shift)];
      tileX := tileX + 1;
    }
    assert row[..8] == row;
  }

  /** The Y increment of `updateScrollingY` on `v` and the coarse Y scratch value `y`. */
  method IncrementFineY(v: nat, y: nat) returns (v': nat, y': nat)
    ensures (v', y') == YIncrement(v, y)
  {
    v', y' := v, y;
    if v' / 0x1000 % 8 != 7 {
      v' := v' + 0x1000;
    } else {
      v' := WithFineY(v', 0);
      y' := v' / 32 % 32;
      if y' == 29 {
        y' := 0;
        v' := FlipNameTableY(v');
      } else if y' == 31 {
        y' := 0;
      } else {
        y' := y' + 1;
      }
      v' := WithCoarseY(v', y');
    }
  }

  /** The scroll registers `updateScrollingY` leaves on a dot of type `kind`. */
  method ScrollYStep(kind: CycleType, v: nat, y: nat, t: nat) returns (v': nat, y': nat)
    ensures (v', y') == ScrollYOf(kind, v, y, t)
  {
    v', y' := v, y;
    if kind == IncrementY {
      v', y' := IncrementFineY(v, y);
    } else if kind == CopyX {
      v' := HorizontalCopy(v, t);
    }
  }

  /** The priority decision of `renderPixel`: which of the background and sprite pixels is
      drawn, and whether the pair raises the sprite-zero hit. */
  method Prioritize(column: int, background: nat, sprite: Sprite, spriteColor: nat) returns (p: Pixel)
    ensures p == Priority(column, background, sprite, spriteColor)
  {
    if background % 4 == 0 && spriteColor % 4 == 0 {
      p := Pixel(0, true, false);
    } else if background % 4 == 0 {
      p := Pixel(spriteColor, false, false);
    } else if spriteColor % 4 == 0 {
      p := Pixel(background, true, false);
    } else {
      var hit := sprite.index == 0 && column < 255;
      if sprite.priority == 0 {
        p := Pixel(spriteColor, false, hit);
      } else {
        p := Pixel(background, true, hit);
      }
    }
  }

  /** `fetchSpriteRow`: reads row `row` of OAM sprite `i` from CHR memory and returns its
      two pattern bytes and its eight pixels. */
  method FetchSpriteRow(memory: PpuMemory, ctrl: Control, i: nat, row: nat)
      returns (low: Option<byte>, high: Option<byte>, buffer: seq<nat>)
    requires memory.mapper.Valid() && memory.mapper.sram.Length == SRAM_SIZE
    requires memory.oam.Length == OAM_SIZE && i < 64 && row < SpriteSize(ctrl)
    ensures var fetch := FetchOf(memory.oam[..], ctrl, i, row);
            && low == Mappers.Read(memory.mapper.State(), fetch.address)
            && high == Mappers.Read(memory.mapper.State(), fetch.address + 8)
            && buffer == TileRow(fetch.attribute, low, high, fetch.reversed)
  {
    var fetch := SpriteRowFetch(memory.oam, ctrl, i, row);
    low := memory.mapper.Read8(fetch.address);
    high := memory.mapper.Read8(fetch.address + 8);
    buffer := ReadTileRow([], fetch.attribute, low, high, fetch.reversed, true);
  }

  /** Where `fetchSpriteRow` reads: the pattern address of the row, the palette bits and the
      horizontal flip of OAM sprite `i`. */
  method SpriteRowFetch(oam: array<byte>, ctrl: Control, i: nat, row: nat) returns (fetch: SpriteFetch)
    requires oam.Length == OAM_SIZE && i < 64 && row < SpriteSize(ctrl)
    ensures fetch == FetchOf(oam[..], ctrl, i, row)
  {
    var tile: nat := oam[4 * i + 1];
    var attributes := oam[4 * i + 2];
    var table: nat := 0;
    var size := if ctrl.spriteSize != 0 then 16 else 8;
    if ctrl.spriteSize == 0 {
      table := ctrl.spriteTable;
    } else {
      table := tile % 2;
      tile := tile - tile % 2;
    }
    var r := if attributes >= 0x80 then size - 1 - row else row;
    if r > 7 {
      tile := tile + 1;
      r := r % 8;
    }
    fetch := SpriteFetch(0x1000 * table + tile * 16 + r, attributes % 4 * 4, attributes / 0x40 % 2 == 1);
  }

  /** The scan of `fetchAndStoreSpriteRows` over the 64 OAM entries of the PPU state `s`: the
      slots filled with the first eight sprites on the scanline, the pattern bytes of the last
      one stored, and the overflow flag set at a ninth, where the scan stops. */
  method ScanSprites(memory: PpuMemory, ctrl: Control, scanline: nat, sprites0: seq<Sprite>,
                     low0: Option<byte>, high0: Option<byte>, overflow0: bit, ghost s: PpuState)
      returns (count: nat, sprites: seq<Sprite>, low: Option<byte>, high: Option<byte>, overflow: bit)
    requires Good(s) && memory.mapper.Valid() && memory.mapper.sram.Length == SRAM_SIZE
    requires s.vram.oam == memory.oam[..] && s.vram.mapper == memory.mapper.State()
    requires ctrl == s.ctrl && scanline == s.scanline && sprites0 == s.sprites
    requires low0 == s.lowTileByte && high0 == s.highTileByte && overflow0 == s.spriteOverflow
    ensures var r := EvaluateSprites(s);
            && count == r.spriteCount && sprites == r.sprites && overflow == r.spriteOverflow
            && low == r.lowTileByte && high == r.highTileByte
  {
    var size := SpriteSize(ctrl);
    count, sprites, low, high, overflow := 0, sprites0, low0, high0, overflow0;
    var i := 0;
    while i < 64
      invariant 0 <= i <= 64 && Scanned(s, i, count, sprites, low, high) && overflow == overflow0
    {
      var row := scanline - memory.oam[4 * i];
      if 0 <= row < size {
        if count == 8 {
          ScanOverflow(s, i, sprites, low, high);
          return count, sprites, low, high, 1;
        }
        var sprite, l, h := FetchSprite(memory, ctrl, i, row, s.vram, s.scanline);
        ScanStore(s, i, count, sprites, low, high, sprite, l, h);
        count, sprites, low, high := count + 1, sprites[count := sprite], l, h;
      } else {
        ScanSkip(s, i, count, sprites, low, high);
      }
      i := i + 1;
    }
    ScanComplete(s, count, sprites, low, high);
  }

  /** After the scan of the first `i` entries: the hits so far fill the first `count` slots,
      and the tile bytes are those of the last one stored. */
  ghost predicate Scanned(s: PpuState, i: nat, count: nat, sprites: seq<Sprite>, low: Option<byte>, high: Option<byte>)
    requires Good(s) && i <= 64
  {
    var hits := Hits(s.vram.oam, s.scanline, SpriteSize(s.ctrl), i);
    && count == |hits| <= 8 && SlotsHold(s, hits, count, sprites)
    && (count == 0 ==> low == s.lowTileByte && high == s.highTileByte)
    && (count > 0 ==> (low, high) == SpriteBytes(s.vram, s.ctrl, s.scanline, hits[count - 1]))
  }

  /** The first `count` slots hold the sprites of the first `count` hits; the rest are the
      slots of `s` untouched. */
  ghost predicate SlotsHold(s: PpuState, hits: seq<nat>, count: nat, sprites: seq<Sprite>)
    requires Good(s)
  {
    && |sprites| == 8 && count <= |hits| && count <= 8
    && (forall k :: 0 <= k < count ==> hits[k] < 64 && OnScanline(s.vram.oam, hits[k], s.scanline, SpriteSize(s.ctrl)))
    && (forall k :: 0 <= k < 8 ==>
          sprites[k] == if k < count then StoredSprite(s.vram, s.ctrl, s.scanline, hits[k]) else s.sprites[k])
  }

  /** The slot contents for OAM entry `i`, whose row `row` is on the scanline: the sprite
      built from the fetched row, and the two pattern bytes. */
  method FetchSprite(memory: PpuMemory, ctrl: Control, i: nat, row: nat, ghost vram: VramState, ghost scanline: int)
      returns (sprite: Sprite, low: Option<byte>, high: Option<byte>)
    requires memory.mapper.Valid() && memory.mapper.sram.Length == SRAM_SIZE && memory.oam.Length == OAM_SIZE
    requires vram.oam == memory.oam[..] && vram.mapper == memory.mapper.State()
    requires i < 64 && row == scanline - memory.oam[4 * i] && row < SpriteSize(ctrl)
    ensures sprite == StoredSprite(vram, ctrl, scanline, i)
    ensures (low, high) == SpriteBytes(vram, ctrl, scanline, i)
  {
    var buffer;
    low, high, buffer := FetchSpriteRow(memory, ctrl, i, row);
    sprite := Sprite(buffer, memory.oam[4 * i + 3], memory.oam[4 * i + 2] / 32 % 2, i);
  }

  /** Storing entry `i`, on the scanline, in the next free slot moves the scan past it. */
  lemma ScanStore(s: PpuState, i: nat, count: nat, sprites: seq<Sprite>, low: Option<byte>, high: Option<byte>,
                  sprite: Sprite, low': Option<byte>, high': Option<byte>)
    requires Good(s) && i < 64 && OnScanline(s.vram.oam, i, s.scanline, SpriteSize(s.ctrl))
    requires Scanned(s, i, count, sprites, low, high) && count < 8
    requires sprite == StoredSprite(s.vram, s.ctrl, s.scanline, i)
    requires (low', high') == SpriteBytes(s.vram, s.ctrl, s.scanline, i)
    ensures Scanned(s, i + 1, count + 1, sprites[count := sprite], low', high')
  {
    var hits := Hits(s.vram.oam, s.scanline, SpriteSize(s.ctrl), i);
    assert Hits(s.vram.oam, s.scanline, SpriteSize(s.ctrl), i + 1) == hits + [i];
    SlotsExtend(s, hits + [i], count, sprites, sprite);
  }

  /** An entry off the scanline leaves the scan where it was. */
  lemma ScanSkip(s: PpuState, i: nat, count: nat, sprites: seq<Sprite>, low: Option<byte>, high: Option<byte>)
    requires Good(s) && i < 64 && !OnScanline(s.vram.oam, i, s.scanline, SpriteSize(s.ctrl))
    requires Scanned(s, i, count, sprites, low, high)
    ensures Scanned(s, i + 1, count, sprites, low, high)
  {
    assert Hits(s.vram.oam, s.scanline, SpriteSize(s.ctrl), i + 1) == Hits(s.vram.oam, s.scanline, SpriteSize(s.ctrl), i);
  }

  /** A ninth sprite on the scanline ends the scan with the overflow flag set. */
  lemma ScanOverflow(s: PpuState, i: nat, sprites: seq<Sprite>, low: Option<byte>, high: Option<byte>)
    requires Good(s) && i < 64 && OnScanline(s.vram.oam, i, s.scanline, SpriteSize(s.ctrl))
    requires Scanned(s, i, 8, sprites, low, high)
    ensures var r := EvaluateSprites(s);
            && r.spriteCount == 8 && r.sprites == sprites && r.spriteOverflow == 1
            && r.lowTileByte == low && r.highTileByte == high
  {
    var r := EvaluateSprites(s);
    PpuFacts.HitsPastEight(s.vram.oam, s.scanline, SpriteSize(s.ctrl), i);
    PpuFacts.Evaluated(s);
    assert r.sprites == sprites;
  }

  /** A scan that reaches the end without a ninth sprite leaves the overflow flag alone. */
  lemma ScanComplete(s: PpuState, count: nat, sprites: seq<Sprite>, low: Option<byte>, high: Option<byte>)
    requires Good(s) && Scanned(s, 64, count, sprites, low, high)
    ensures var r := EvaluateSprites(s);
            && r.spriteCount == count && r.sprites == sprites && r.spriteOverflow == s.spriteOverflow
            && r.lowTileByte == low && r.highTileByte == high
  {
    assert EvaluateSprites(s).sprites == sprites;
  }

  /** Storing the sprite of the next hit in the next slot keeps `SlotsHold`. */
  lemma SlotsExtend(s: PpuState, hits: seq<nat>, count: nat, sprites: seq<Sprite>, sprite: Sprite)
    requires Good(s) && SlotsHold(s, hits, count, sprites) && count < 8 && count < |hits|
    requires hits[count] < 64 && OnScanline(s.vram.oam, hits[count], s.scanline, SpriteSize(s.ctrl))
    requires sprite == StoredSprite(s.vram, s.ctrl, s.scanline, hits[count])
    ensures SlotsHold(s, hits, count + 1, sprites[count := sprite])
  {
  }

  /** The reads of `fetchAndStoreBackgroundRow` for the PPU state `s`: the attribute bits,
      and unless the name table byte is missing, the two pattern bytes and the tile buffer
      with the row appended. */
  method ReadBackgroundRow(memory: PpuMemory, v: nat, table: bit, tileBuffer: seq<nat>, ghost s: PpuState)
      returns (attribute: nat, low: Option<byte>, high: Option<byte>, buffer: seq<nat>, r: Result<()>)
    requires Good(s) && memory.Valid() && s.vram == memory.State()
    requires v == s.v && table == s.ctrl.backgroundTable && tileBuffer == s.backgroundTileBuffer
    ensures var (s', e) := FetchBackground(s);
            && attribute == s'.attributeTableByte && r == e
            && (r.Ok? ==> low == s'.lowTileByte && high == s'.highTileByte && buffer == s'.backgroundTileBuffer)
  {
    var name, attributeByte := ReadNameAndAttribute(memory, v, s.vram);
    attribute := AttributeBits(attributeByte, AttributeShift(v));
    low, high, buffer := None, None, [];
    if name.None? {
      return attribute, low, high, buffer, Err(UndefinedRead(NameTableAddress(v)));
    }
    low, high := ReadPattern(memory, PatternAddress(table, name.value, FineY(v)), s.vram);
    buffer := ReadTileRow(tileBuffer, attribute, low, high, false, false);
    r := Ok(());
  }

  /** The name table byte and the attribute byte for the tile at `v`, through `read8`. */
  method ReadNameAndAttribute(memory: PpuMemory, v: nat, ghost vram: VramState) returns (name: Option<byte>, attribute: Option<byte>)
    requires memory.Valid() && vram == memory.State()
    ensures name == Lookup(vram.names, Resolve(vram.mapper.mirrorType, NameTableAddress(v)))
    ensures attribute == Lookup(vram.names, Resolve(vram.mapper.mirrorType, AttributeAddress(v)))
  {
    InAddressSpace(NameTableAddress(v));
    var n := memory.Read8(NameTableAddress(v));
    InAddressSpace(AttributeAddress(v));
    var a := memory.Read8(AttributeAddress(v));
    name, attribute := n.value, a.value;
  }

  /** The two planes of a pattern row below 0x2000, through `read8`. */
  method ReadPattern(memory: PpuMemory, address: nat, ghost vram: VramState) returns (low: Option<byte>, high: Option<byte>)
    requires memory.Valid() && vram == memory.State() && address + 8 < 0x2000
    ensures low == Mappers.Read(vram.mapper, address) && high == Mappers.Read(vram.mapper, address + 8)
  {
    InAddressSpace(address);
    var l := memory.Read8(address);
    InAddressSpace(address + 8);
    var h := memory.Read8(address + 8);
    low, high := l.value, h.value;
  }

  /** An address below 0x4000 is its own VRAM address. */
  lemma InAddressSpace(a: nat)
    requires a < 0x4000
    ensures a % 0x4000 == a
  {
  }

  class Ppu {
    const memory: PpuMemory

    var timing: Timing
    var scroll: Scroll
    var port: Port
    var tiles: TileFetch
    var slots: SpriteSlots
    var ctrl: Control
    var mask: Mask
    var output: Output

    ghost function Repr(): set<object>
      reads this, memory, memory.nameTable, memory.paletteTable
    {
      {this} + memory.Repr()
    }

    /** The VRAM is well formed and the registers satisfy the model's invariant. */
    ghost predicate Valid()
      reads this, memory, memory.nameTable, memory.paletteTable, memory.mapper, memory.mapper.chr,
            memory.mapper.prg, memory.nameTable.data, memory.paletteTable.data, memory.oam,
            memory.mapper.chr.data, memory.mapper.chr.pointers, memory.mapper.prg.data,
            memory.mapper.prg.pointers, memory.mapper.sram
    {
      memory.Valid() && Good(State())
    }

    /** The fields and the VRAM as one model state. */
    ghost function State(): PpuState
      reads this, memory, memory.nameTable, memory.paletteTable, memory.mapper, memory.mapper.chr,
            memory.mapper.prg, memory.nameTable.data, memory.paletteTable.data, memory.oam,
            memory.mapper.chr.data, memory.mapper.chr.pointers, memory.mapper.prg.data,
            memory.mapper.prg.pointers, memory.mapper.sram
    {
      PpuState(timing.cycle, timing.cycleType, timing.scanline, timing.scanlineType, port.interrupt,
               scroll.v, scroll.t, scroll.y, scroll.x, scroll.w, timing.f,
               port.register, port.nmiOccurred, port.nmiOutput,
               tiles.backgroundTileBuffer, tiles.lowTileByte, tiles.highTileByte, tiles.attributeTableByte,
               slots.spriteCount, slots.sprites, ctrl, mask, slots.spriteZeroHit, slots.spriteOverflow,
               port.tmpOamAddress, port.oamAddress, port.bufferedData,
               output.color, output.isBackgroundPixel, output.frameReady, memory.State())
    }

    constructor(mapper: Mapper)
      requires mapper.Valid()
      ensures fresh(Repr() - mapper.Repr) && memory.mapper == mapper
      ensures Valid()
      ensures State() == Initial(VramState(seq(NAME_TABLE_SIZE, _ => 0), seq(PALETTE_SIZE, _ => 0),
                                           seq(OAM_SIZE, _ => 0), mapper.State(), mapper.kind, mapper.prg.bankNbr))
    {
      memory := new PpuMemory(mapper);
      timing := Timing(0, Zero, 261, PreLine, 0);
      scroll := Scroll(0, 0, 0, 0, 0);
      port := Port(0, 0, 0, None, Some(0), 0, 0);
      tiles := TileFetch([], Some(0), Some(0), 0);
      slots := SpriteSlots(0, seq(8, _ => EMPTY_SPRITE), 0, 0);
      ctrl, mask := CONTROL_ZERO, MASK_ZERO;
      output := Output(0, true, false);
    }

    /** `reset`: the VRAM buffers zeroed, the counters at the pre-render line, the registers
        and flags cleared. */
    method Reset()
      requires Valid()
      modifies this, memory.nameTable.data, memory.paletteTable.data, memory.oam
      ensures State() == PpuModel.Reset(old(State()))
      ensures Valid()
    {
      ResetState();
    }

    /** The body of `reset`. */
    method ResetState()
      requires memory.Valid()
      modifies this, memory.nameTable.data, memory.paletteTable.data, memory.oam
      ensures State() == PpuModel.Reset(old(State()))
    {
      ClearVram();
      timing := timing.(cycle := 0, scanline := 261, f := 0);
      scroll := scroll.(v := 0, t := 0, x := 0, w := 0);
      port := port.(register := 0, nmiOccurred := 0, nmiOutput := 0, oamAddress := 0, bufferedData := Some(0));
      tiles := tiles.(lowTileByte := Some(0), highTileByte := Some(0));
      slots := slots.(spriteCount := 0, spriteZeroHit := 0, spriteOverflow := 0);
      ctrl, mask := CONTROL_ZERO, MASK_ZERO;
      output := output.(frameReady := false);
    }

    /** The buffers `reset` zeroes: name tables, palette and OAM. */
    method ClearVram()
      requires memory.Valid()
      modifies memory.nameTable.data, memory.paletteTable.data, memory.oam
      ensures var s := old(State());
              State() == s.(vram := s.vram.(names := seq(|s.vram.names|, _ => 0), palette := seq(|s.vram.palette|, _ => 0),
                                           oam := seq(|s.vram.oam|, _ => 0)))
    {
      memory.Flush();
    }

    /** `read8`: a register read by the CPU. */
    method Read8(address: int) returns (r: Result<Option<byte>>)
      requires Valid()
      modifies this
      ensures (State(), r) == ReadRegister(old(State()), address)
      ensures Valid()
    {
      if address == 0x2002 {
        var status := ReadStatus();
        r := Ok(Some(status));
      } else if address == 0x2004 {
        r := Ok(if port.oamAddress < memory.oam.Length then Some(memory.oam[port.oamAddress]) else None);
      } else if address == 0x2007 {
        r := ReadData();
      } else {
        r := Ok(Some(0));
      }
    }

    /** PPUSTATUS (0x2002): reading it clears the vblank flag and the write toggle. */
    method ReadStatus() returns (status: byte)
      requires Good(State())
      modifies this
      ensures (State(), Ok(Some(status))) == ReadRegister(old(State()), 0x2002)
    {
      status := port.register % 32 + 32 * slots.spriteOverflow + 64 * slots.spriteZeroHit;
      if port.nmiOccurred == 1 && (timing.cycle != 2 || timing.scanline != 241) {
        status := status + 128;
      }
      port := port.(nmiOccurred := 0);
      scroll := scroll.(w := 0);
    }

    /** PPUDATA (0x2007): the buffered read, then the step of `v`. */
    method ReadData() returns (r: Result<Option<byte>>)
      requires Valid()
      modifies this
      ensures (State(), r) == ReadRegister(old(State()), 0x2007)
    {
      var data := memory.Read8(scroll.v);
      if data.Err? {
        r := Err(data.fault);
      } else {
        r := Ok(port.bufferedData);
        port := port.(bufferedData := data.value);
        scroll := scroll.(v := scroll.v + (if ctrl.increment == 0 then 1 else 32));
      }
    }

    /** `write8`: a register write by the CPU. */
    method Write8(address: int, value: byte)
      requires Valid()
      modifies this, memory.Repr()
      ensures Repr() == old(Repr())
      ensures State() == WriteRegister(old(State()), address, value)
      ensures Valid()
    {
      StoreRegister(address, value);
    }

    /** The dispatch of `write8` on the register address. */
    method StoreRegister(address: int, value: byte)
      requires Valid()
      modifies this, memory.Repr()
      ensures Repr() == old(Repr()) && memory.Valid()
      ensures State() == WriteRegister(old(State()), address, value)
    {
      if address == 0x2000 {
        WriteControl(value);
      } else if address == 0x2001 {
        port := port.(register := value);
        mask := MaskOf(value);
      } else if address == 0x2003 {
        port := port.(register := value, oamAddress := value);
      } else if address == 0x2004 {
        WriteOam(value);
      } else if address == 0x2005 || address == 0x2006 {
        WriteScrollOrAddress(address, value);
      } else if address == 0x2007 {
        WriteData(value);
      } else {
        port := port.(register := value);
      }
    }

    /** PPUCTRL (0x2000): the control flags, the NMI enable, and the name table bits of `t`. */
    method WriteControl(value: byte)
      requires Good(State())
      modifies this
      ensures State() == WriteRegister(old(State()), 0x2000, value)
    {
      port := port.(register := value, nmiOutput := value / 128);
      ctrl := ControlOf(value);
      scroll := scroll.(t := ControlT(scroll.t, value));
    }

    /** OAMDATA (0x2004): stores at the OAM address, dropped past the end, then steps it. */
    method WriteOam(value: byte)
      requires Valid()
      modifies this, memory.oam
      ensures State() == WriteRegister(old(State()), 0x2004, value)
    {
      if port.oamAddress < memory.oam.Length {
        memory.oam[port.oamAddress] := value;
      }
      port := port.(register := value, oamAddress := port.oamAddress + 1);
    }

    /** PPUSCROLL (0x2005) and PPUADDR (0x2006): the two halves of each, chosen by the write
        toggle; the second PPUADDR write also loads `v`. */
    method WriteScrollOrAddress(address: int, value: byte)
      requires Good(State()) && (address == 0x2005 || address == 0x2006)
      modifies this
      ensures State() == WriteRegister(old(State()), address, value)
    {
      port := port.(register := value);
      if address == 0x2005 {
        if scroll.w == 0 {
          scroll := scroll.(t := ScrollFirstT(scroll.t, value), x := value % 8, w := 1);
        } else {
          scroll := scroll.(t := ScrollSecondT(scroll.t, value), w := 0);
        }
      } else {
        if scroll.w == 0 {
          scroll := scroll.(t := AddressFirstT(scroll.t, value), w := 1);
        } else {
          var t := AddressSecondT(scroll.t, value);
          scroll := scroll.(t := t, v := t, w := 0);
        }
      }
    }

    /** PPUDATA (0x2007): the VRAM write at `v`, then the step of `v`. */
    method WriteData(value: byte)
      requires Valid()
      modifies this, memory.Repr()
      ensures Repr() == old(Repr()) && memory.Valid()
      ensures State() == old(State()).(register := value, v := old(scroll.v) + Increment(ctrl),
                                       vram := VramWrite(old(memory.State()), old(scroll.v), value))
    {
      WriteVram(value);
      port := port.(register := value);
      scroll := scroll.(v := scroll.v + (if ctrl.increment == 0 then 1 else 32));
    }

    /** The VRAM write of PPUDATA, at `v`. */
    method WriteVram(value: byte)
      requires Valid()
      modifies memory.Repr()
      ensures Repr() == old(Repr()) && memory.Valid()
      ensures State() == old(State()).(vram := VramWrite(old(memory.State()), scroll.v, value))
    {
      memory.Write8(scroll.v, value);
    }

    /** `updateScrollingX`: the coarse X increment. */
    method UpdateScrollingX()
      modifies this
      ensures State() == old(State()).(v := CoarseXIncrement(old(scroll.v)))
    {
      var v := scroll.v;
      if v % 32 == 31 {
        var cleared := v % 0x10000 / 32 * 32;
        v := cleared / 0x800 * 0x800 + (1 - cleared / 0x400 % 2) * 0x400 + cleared % 0x400;
      } else {
        v := v + 1;
      }
      scroll := scroll.(v := v);
    }

    /** `updateScrollingY`: the Y increment at dot 258, the horizontal copy at dot 257. */
    method UpdateScrollingY()
      modifies this
      ensures State() == ScrollY(old(State()))
    {
      var v, y := ScrollYStep(timing.cycleType, scroll.v, scroll.y, scroll.t);
      scroll := scroll.(v := v, y := y);
    }

    /** `getCurrentBackgroundPixel`. */
    method CurrentBackgroundPixel() returns (r: nat)
      ensures r == BackgroundPixel(State())
    {
      var buffer := tiles.backgroundTileBuffer;
      if mask.showBackground == 0 {
        r := 0;
      } else if scroll.x < |buffer| {
        r := buffer[scroll.x] % 16;
      } else {
        r := 0;
      }
    }

    /** `getCurrentSpritePixel`: the first slot with an opaque pixel at the column. */
    method CurrentSpritePixel(column: int) returns (index: nat, spriteColor: nat)
      requires Good(State())
      ensures (index, spriteColor) == SpritePixel(State(), column)
    {
      if mask.showSprites == 0 {
        return 0, 0;
      }
      var sprites, count := slots.sprites, slots.spriteCount;
      var i := 0;
      while i < count
        invariant 0 <= i <= count
        invariant SpritePixelFrom(sprites, count, column, i) == SpritePixelFrom(sprites, count, column, 0)
      {
        var offset := column - sprites[i].x;
        if 0 <= offset <= 7 {
          var c := if offset < |sprites[i].buffer| then sprites[i].buffer[offset] % 16 else 0;
          if c % 4 != 0 {
            return i, c + 16;
          }
        }
        i := i + 1;
      }
      return 0, 0;
    }

    /** `renderPixel`, up to the frame buffer write: the pixel's palette address, whether it
        is a background pixel, and the sprite-zero hit. */
    method RenderPixel()
      requires Good(State())
      modifies this
      ensures State() == Render(old(State()))
    {
      var pixel := CurrentPixel();
      output := output.(color := pixel.color, isBackgroundPixel := pixel.isBackground);
      if pixel.zeroHit {
        slots := slots.(spriteZeroHit := 1);
      }
    }

    /** The pixel `renderPixel` draws at the current dot: the background and sprite pixels,
        each blanked in the leftmost eight columns when the mask hides them there, and the
        priority decision between them. */
    method CurrentPixel() returns (pixel: Pixel)
      requires Good(State())
      ensures pixel == PixelAt(State())
    {
      var column := timing.cycle - 1;
      var background := 0;
      if !(column < 8 && mask.showLeftBackground == 0) {
        background := CurrentBackgroundPixel();
      }
      var index, spriteColor := 0, 0;
      if !(column < 8 && mask.showLeftSprites == 0) {
        index, spriteColor := CurrentSpritePixel(column);
      }
      pixel := Prioritize(column, background, slots.sprites[index], spriteColor);
    }

    /** `fetchAndStoreSpriteRows`: the scan's slots, flag and tile bytes stored. */
    method FetchAndStoreSpriteRows()
      requires Valid()
      modifies this
      ensures State() == EvaluateSprites(old(State()))
    {
      var count, sprites, low, high, overflow :=
        ScanSprites(memory, ctrl, timing.scanline, slots.sprites, tiles.lowTileByte, tiles.highTileByte,
                    slots.spriteOverflow, State());
      slots := slots.(spriteCount := count, sprites := sprites, spriteOverflow := overflow);
      tiles := tiles.(lowTileByte := low, highTileByte := high);
    }

    /** `fetchAndStoreBackgroundRow`: the name table byte, the attribute bits and the two
        pattern bytes of the next background tile, appended to the tile buffer. */
    method FetchAndStoreBackgroundRow() returns (r: Result<()>)
      requires Valid()
      modifies this
      ensures (State(), r) == FetchBackground(old(State()))
    {
      var attribute, low, high, buffer;
      attribute, low, high, buffer, r :=
        ReadBackgroundRow(memory, scroll.v, ctrl.backgroundTable, tiles.backgroundTileBuffer, State());
      if r.Err? {
        tiles := tiles.(attributeTableByte := attribute);
      } else {
        tiles := tiles.(attributeTableByte := attribute, lowTileByte := low, highTileByte := high,
                        backgroundTileBuffer := buffer);
      }
    }

    /** One background step of the pre-render and visible lines: drop a pixel and, every
        eighth dot, fetch a tile (below dot 256) and move to the next coarse X. */
    method ShiftFetchScroll() returns (r: Result<()>)
      requires Valid()
      modifies this
      ensures (State(), r) == PpuModel.ShiftFetchScroll(old(State()))
    {
      if |tiles.backgroundTileBuffer| > 0 {
        tiles := tiles.(backgroundTileBuffer := tiles.backgroundTileBuffer[1..]);
      }
      r := Ok(());
      if timing.cycle % 8 == 0 {
        if timing.cycle < 256 {
          r := FetchAndStoreBackgroundRow();
          if r.Err? {
            return;
          }
        }
        UpdateScrollingX();
      }
    }

    /** `doPreline`. */
    method DoPreline() returns (r: Result<Option<Interrupt>>)
      requires Valid()
      modifies this
      ensures (State(), r) == PpuModel.DoPreline(old(State()))
    {
      var kind := timing.cycleType;
      if kind == One || kind == Visible || kind == Prefetch {
        var e := ShiftFetchScroll();
        if e.Err? {
          return Err(e.fault);
        }
      }
      PrelineRegisters();
      r := Ok(None);
      if kind == MapperTick {
        var irq := memory.mapper.Tick();
        r := Ok(if irq then Some(Irq) else None);
      }
    }

    /** The register work of `doPreline` after the background step. */
    method PrelineRegisters()
      requires Good(State())
      modifies this
      ensures State() == PpuModel.PrelineRegisters(old(State()))
    {
      var kind := timing.cycleType;
      if kind == Sprites {
        slots := slots.(spriteCount := 0);
      }
      var v := if kind == CopyY then VerticalCopy(scroll.v, scroll.t) else scroll.v;
      var y;
      v, y := ScrollYStep(kind, v, scroll.y, scroll.t);
      scroll := scroll.(v := v, y := y);
      if kind == One {
        port := port.(nmiOccurred := 0);
        output := output.(frameReady := true);
      }
    }

    /** The background part of `doVisibleLine`: the shift and fetch on the visible dots, the
        buffer emptied at dot 321, the next line's first tiles on the eighth dots after it. */
    method VisibleBackground() returns (r: Result<()>)
      requires Valid()
      modifies this
      ensures (State(), r) == PpuModel.VisibleBackground(old(State()))
    {
      r := Ok(());
      if timing.cycleType == Visible {
        r := ShiftFetchScroll();
      } else if timing.cycleType == FlushTileData {
        tiles := tiles.(backgroundTileBuffer := []);
      } else if timing.cycleType == Prefetch && timing.cycle % 8 == 0 {
        r := FetchAndStoreBackgroundRow();
        if r.Ok? {
          UpdateScrollingX();
        }
      }
    }

    /** `doVisibleLine`. */
    method DoVisibleLine() returns (r: Result<Option<Interrupt>>)
      requires Valid()
      modifies this
      ensures (State(), r) == PpuModel.DoVisibleLine(old(State()))
    {
      var kind := timing.cycleType;
      if kind == One || kind == Visible {
        RenderPixel();
      }
      var e := VisibleBackground();
      if e.Err? {
        return Err(e.fault);
      }
      UpdateScrollingY();
      if kind == Sprites {
        FetchAndStoreSpriteRows();
      }
      r := Ok(None);
      if kind == MapperTick {
        var irq := memory.mapper.Tick();
        r := Ok(if irq then Some(Irq) else None);
      }
    }

    /** `doVBlankLine`. */
    method DoVBlankLine() returns (r: Option<Interrupt>)
      modifies this
      ensures (State(), r) == PpuModel.DoVBlankLine(old(State()))
    {
      if timing.cycleType == Sprites {
        slots := slots.(spriteCount := 0);
      }
      r := None;
      if timing.cycleType == One {
        port := port.(nmiOccurred := 1);
        if port.nmiOutput != 0 {
          r := Some(Nmi);
        }
      }
    }

    /** `incrementCounters`. */
    method IncrementCounters()
      modifies this
      ensures var (c, l, f') := NextCounters(old(timing.cycle), old(timing.scanline), old(timing.f),
                                             old(mask.showBackground));
              State() == old(State()).(cycle := c, scanline := l, f := f')
    {
      var cycle, scanline, f := timing.cycle + 1, timing.scanline, timing.f;
      if scanline == 261 && cycle == 340 && mask.showBackground != 0 && f == 1 {
        cycle, f := cycle + 1, 0;
      }
      if cycle == 341 {
        cycle, scanline := 0, scanline + 1;
        if scanline == 262 {
          scanline := 0;
        }
      }
      timing := timing.(cycle := cycle, scanline := scanline, f := f);
    }

    /** The line's work within `tick`, chosen by the scanline type and the rendering flags. */
    method RunLine() returns (r: Result<()>)
      requires Valid()
      modifies this
      ensures (State(), r) == PpuModel.RunLine(old(State()))
    {
      r := Ok(());
      if timing.scanlineType == VBlankLine {
        var i := DoVBlankLine();
        port := port.(interrupt := i);
      } else if mask.showBackground != 0 || mask.showSprites != 0 {
        if timing.scanlineType == PreLine || timing.scanlineType == VisibleLine {
          var e;
          if timing.scanlineType == PreLine {
            e := DoPreline();
          } else {
            e := DoVisibleLine();
          }
          if e.Err? {
            return Err(e.fault);
          }
          port := port.(interrupt := e.value);
        }
      } else {
        port := port.(interrupt := None);
      }
    }

    /** `tick`: one PPU dot. */
    method Tick() returns (r: Result<Option<Interrupt>>)
      requires Valid()
      modifies this
      ensures (State(), r) == PpuModel.Tick(old(State()))
      ensures Valid()
    {
      ghost var s := State();
      r := Dot();
      PpuFacts.TickKeepsGood(s);
    }

    /** The body of `tick`: classify the dot, do the line's work, advance the counters. */
    method Dot() returns (r: Result<Option<Interrupt>>)
      requires Valid()
      modifies this
      ensures (State(), r) == PpuModel.Tick(old(State()))
    {
      timing := timing.(cycleType := CycleTypeOf(timing.cycle), scanlineType := ScanLineTypeOf(timing.scanline));
      var e := RunLine();
      if e.Err? {
        return Err(e.fault);
      }
      IncrementCounters();
      r := Ok(port.interrupt);
    }

    /** `acknowledgeFrame`. */
    method AcknowledgeFrame()
      requires Valid()
      modifies this
      ensures State() == PpuModel.AcknowledgeFrame(old(State()))
      ensures Valid()
    {
      output := output.(frameReady := false);
      if mask.showSprites == 1 {
        slots := slots.(spriteOverflow := 0, spriteZeroHit := 0);
      }
    }
  }
}
