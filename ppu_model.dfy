/** The picture processing unit as values (src/Ppu.ts): its registers and flags as one state,
    and each step of `tick`, each register read and each register write as a function of it.
    The `Ppu` class in module Video is proved to follow these functions. */
module PpuModel {
  import opened Wrappers
  import Bits
  import opened Common
  import opened Mirroring
  import opened VideoMemory
  import Mappers

  /** `undefined` in a shift or a mask counts as 0. */
  function OrZero(b: Option<byte>): byte
  {
    if b.Some? then b.value else 0
  }

  /** One of the eight sprite slots sprite evaluation fills: a row of eight 4-bit pixels, the
      sprite's screen column, its behind-background bit and its OAM index. */
  datatype Sprite = Sprite(buffer: seq<nat>, x: nat, priority: bit, index: nat)

  const EMPTY_SPRITE := Sprite([], 0, 0, 0)

  /** The PPUCTRL (0x2000) fields other than the NMI enable. */
  datatype Control = Control(nameTable: nat, increment: bit, spriteTable: bit, backgroundTable: bit,
                             spriteSize: bit, masterSlave: bit)

  /** The PPUMASK (0x2001) fields. */
  datatype Mask = Mask(grayscale: bit, showLeftBackground: bit, showLeftSprites: bit, showBackground: bit,
                       showSprites: bit, redTint: bit, greenTint: bit, blueTint: bit)

  const CONTROL_ZERO := Control(0, 0, 0, 0, 0, 0)
  const MASK_ZERO := Mask(0, 0, 0, 0, 0, 0, 0, 0)

  /** Bits 0-1, 2, 3, 4, 5 and 6 of a PPUCTRL write. */
  function ControlOf(value: byte): Control
  {
    Control(value % 4, value / 4 % 2, value / 8 % 2, value / 16 % 2, value / 32 % 2, value / 64 % 2)
  }

  /** Bits 0 to 7 of a PPUMASK write, one flag each. */
  function MaskOf(value: byte): Mask
  {
    Mask(value % 2, value / 2 % 2, value / 4 % 2, value / 8 % 2,
         value / 16 % 2, value / 32 % 2, value / 64 % 2, value / 128)
  }

  /** How far a PPUDATA access moves `v`. */
  function Increment(ctrl: Control): nat
  {
    if ctrl.increment == 0 then 1 else 32
  }

  /** Every field of the PPU that its operations read or change, with the VRAM behind it.
      `v` and `t` are not masked: like the emulator's numbers they grow past 15 bits when
      incremented, and only the masking operations bring them back below 0x10000. */
  datatype PpuState = PpuState(
    cycle: nat, cycleType: CycleType, scanline: nat, scanlineType: ScanLineType,
    interrupt: Option<Interrupt>,
    v: nat, t: nat, y: nat, x: nat, w: bit, f: bit,
    register: byte, nmiOccurred: bit, nmiOutput: bit,
    backgroundTileBuffer: seq<nat>, lowTileByte: Option<byte>, highTileByte: Option<byte>,
    attributeTableByte: nat, spriteCount: nat, sprites: seq<Sprite>,
    ctrl: Control, mask: Mask, spriteZeroHit: bit, spriteOverflow: bit,
    tmpOamAddress: nat, oamAddress: nat, bufferedData: Option<byte>,
    color: nat, isBackgroundPixel: bool, frameReady: bool,
    vram: VramState)

  /** What every state the PPU reaches satisfies: the VRAM has its constructed sizes, there are
      eight sprite slots, the counters are in range, `f` is 0, and a pending interrupt is the
      NMI, left over only on the vblank line or (after a reset) on the pre-render line. */
  predicate Good(s: PpuState)
  {
    && |s.vram.mapper.sram| == Mappers.SRAM_SIZE && Mappers.SerialOk(s.vram.mapper)
    && |s.vram.oam| == OAM_SIZE && |s.vram.names| == NAME_TABLE_SIZE
    && |s.sprites| == 8 && s.spriteCount <= 8
    && s.cycle <= 340 && s.scanline <= 261 && s.f == 0
    && (s.interrupt.Some? ==> s.interrupt == Some(Nmi) && (s.scanline == 241 || s.scanline == 261))
  }

  /** The state a new PPU starts in, in front of the given VRAM: the pre-render line, every
      register and flag zero, eight empty sprite slots. It satisfies the invariant exactly
      when the VRAM has its constructed sizes. */
  function Initial(vram: VramState): (r: PpuState)
    ensures Good(r) <==> && |vram.mapper.sram| == Mappers.SRAM_SIZE && Mappers.SerialOk(vram.mapper)
                         && |vram.oam| == OAM_SIZE && |vram.names| == NAME_TABLE_SIZE
  {
    PpuState(0, Zero, 261, PreLine, None, 0, 0, 0, 0, 0, 0, 0, 0, 0, [], Some(0), Some(0), 0, 0,
             seq(8, _ => EMPTY_SPRITE), CONTROL_ZERO, MASK_ZERO, 0, 0, 0, 0, Some(0), 0, true, false, vram)
  }

  // ---------------------------------------------------------------------------------------
  // The loopy registers v and t, field by field. Each `x & mask` below is written as the sum
  // of the bit ranges the mask keeps, and each `|` of disjoint ranges as a sum.

  function CoarseX(a: nat): nat { a % 32 }
  function CoarseY(a: nat): nat { a / 32 % 32 }
  function NameTableX(a: nat): nat { a / 0x400 % 2 }
  function NameTableY(a: nat): nat { a / 0x800 % 2 }
  function FineY(a: nat): nat { a / 0x1000 % 8 }
  function TopBit(a: nat): nat { a / 0x8000 % 2 }

  /** `(t & 0xf3ff) | ((value & 3) << 10)`: the name table bits of a PPUCTRL write. */
  function ControlT(t: nat, value: byte): nat
  {
    t % 0x10000 / 0x1000 * 0x1000 + value % 4 * 0x400 + t % 0x400
  }

  /** The first PPUSCROLL write: `(t & 0xffe0) | (value >> 3)`. */
  function ScrollFirstT(t: nat, value: byte): nat
  {
    t % 0x10000 / 32 * 32 + value / 8
  }

  /** The second PPUSCROLL write: the fine Y update, then the coarse Y update. */
  function ScrollSecondT(t: nat, value: byte): nat
  {
    WithCoarseY(WithFineY(t, value % 8), value / 8)
  }

  /** `(t & 0x8fff) | (f << 12)`. */
  function WithFineY(t: nat, f: nat): nat
  {
    t % 0x10000 / 0x8000 * 0x8000 + f * 0x1000 + t % 0x1000
  }

  /** `(t & 0xfc1f) | (c << 5)`. */
  function WithCoarseY(t: nat, c: nat): nat
  {
    t % 0x10000 / 0x400 * 0x400 + c * 32 + t % 32
  }

  /** The first PPUADDR write: `(t & 0x80ff) | ((value & 0x3f) << 8)`. */
  function AddressFirstT(t: nat, value: byte): nat
  {
    t % 0x10000 / 0x8000 * 0x8000 + value % 64 * 0x100 + t % 0x100
  }

  /** The second PPUADDR write: `(t & 0xff00) | value`. */
  function AddressSecondT(t: nat, value: byte): nat
  {
    t % 0x10000 / 0x100 * 0x100 + value
  }

  /** `updateScrollingX`: coarse X 31 clears coarse X, `& 0xffe0`, and flips the horizontal
      name table, `^ 0x400`; any other coarse X is incremented through `v++`. */
  function CoarseXIncrement(v: nat): nat
  {
    if v % 32 == 31 then
      var cleared := v % 0x10000 / 32 * 32;
      cleared / 0x800 * 0x800 + (1 - cleared / 0x400 % 2) * 0x400 + cleared % 0x400
    else v + 1
  }

  /** The Y increment of `updateScrollingY`, as the new `v` and the new `y` field. */
  function YIncrement(v: nat, y: nat): (nat, nat)
  {
    if v / 0x1000 % 8 != 7 then (v + 0x1000, y)
    else
      var v1 := WithFineY(v, 0);
      var coarse := v1 / 32 % 32;                                                    // (v & 0x3e0) >> 5
      var (v2, y2) :=
        if coarse == 29 then (FlipNameTableY(v1), 0)
        else if coarse == 31 then (v1, 0)
        else (v1, coarse + 1);
      (WithCoarseY(v2, y2), y2)
  }

  /** `v ^ 0x800` on a value below 0x10000: bit 11 flipped. */
  function FlipNameTableY(v: nat): nat
  {
    v / 0x1000 * 0x1000 + (1 - v / 0x800 % 2) * 0x800 + v % 0x800
  }

  /** The copy at dot 257: `(v & 0xfbe0) | (t & 0x041f)`. */
  function HorizontalCopy(v: nat, t: nat): nat
  {
    v % 0x10000 / 0x800 * 0x800 + v % 0x400 / 32 * 32 + t / 0x400 % 2 * 0x400 + t % 32
  }

  /** The copy at dots 280-304 of the pre-render line: `(v & 0x841f) | (t & 0x7be0)`. */
  function VerticalCopy(v: nat, t: nat): nat
  {
    v % 0x10000 / 0x8000 * 0x8000 + v / 0x400 % 2 * 0x400 + v % 32 + t % 0x8000 / 0x800 * 0x800 + t % 0x400 / 32 * 32
  }

  // ---------------------------------------------------------------------------------------
  // Registers as the CPU sees them

  /** The PPUSTATUS byte: the low five bits of the last register write, sprite overflow,
      sprite-zero hit, and the vblank flag, hidden on the dot right after it is raised. */
  function StatusByte(s: PpuState): byte
  {
    s.register % 32 + 32 * s.spriteOverflow + 64 * s.spriteZeroHit
      + (if s.nmiOccurred == 1 && (s.cycle != 2 || s.scanline != 241) then 128 else 0)
  }

  /** `read8` of a register: the new state and the byte (or the fault VRAM raises). */
  function ReadRegister(s: PpuState, address: int): (r: (PpuState, Result<Option<byte>>))
    requires Good(s)
    ensures Good(r.0) && r.0.vram == s.vram
    ensures r.0.cycle == s.cycle && r.0.scanline == s.scanline && r.0.ctrl == s.ctrl && r.0.mask == s.mask
    ensures address != 0x2002 && address != 0x2007 ==> r.0 == s
  {
    if address == 0x2002 then (s.(nmiOccurred := 0, w := 0), Ok(Some(StatusByte(s))))
    else if address == 0x2004 then (s, Ok(Lookup(s.vram.oam, s.oamAddress)))
    else if address == 0x2007 then
      match VramRead(s.vram, s.v)
      case Err(e) => (s, Err(e))
      // The palette branch of the buffered read is not reachable: the read above has
      // already failed for every address it covers.
      case Ok(value) => (s.(bufferedData := value, v := s.v + Increment(s.ctrl)), Ok(s.bufferedData))
    else (s, Ok(Some(0)))
  }

  /** `write8` of a register: every write is remembered in `register` first. */
  function WriteRegister(s: PpuState, address: int, value: byte): (r: PpuState)
    requires Good(s)
    ensures Good(r) && r.register == value
    ensures r.cycle == s.cycle && r.scanline == s.scanline && r.interrupt == s.interrupt
    ensures address != 0x2004 && address != 0x2007 ==> r.vram == s.vram
    ensures r.vram.mapper.mirrorType == s.vram.mapper.mirrorType || (address == 0x2007 && s.v % 0x4000 < 0x2000)
  {
    var s := s.(register := value);
    if address == 0x2000 then
      s.(ctrl := ControlOf(value), nmiOutput := value / 128, t := ControlT(s.t, value))
    else if address == 0x2001 then s.(mask := MaskOf(value))
    else if address == 0x2003 then s.(oamAddress := value)
    else if address == 0x2004 then
      s.(vram := s.vram.(oam := Store(s.vram.oam, s.oamAddress, value)), oamAddress := s.oamAddress + 1)
    else if address == 0x2005 then
      if s.w == 0 then s.(t := ScrollFirstT(s.t, value), x := value % 8, w := 1)
      else s.(t := ScrollSecondT(s.t, value), w := 0)
    else if address == 0x2006 then
      if s.w == 0 then s.(t := AddressFirstT(s.t, value), w := 1)
      else s.(t := AddressSecondT(s.t, value), v := AddressSecondT(s.t, value), w := 0)
    else if address == 0x2007 then
      s.(vram := VramWrite(s.vram, s.v, value), v := s.v + Increment(s.ctrl))
    else s
  }

  // ---------------------------------------------------------------------------------------
  // Timing

  /** `getCycleType`, stated as the dots each type covers. */
  function CycleTypeOf(cycle: nat): (r: CycleType)
    ensures r == Zero <==> cycle == 0
    ensures r == One <==> cycle == 1
    ensures r == Visible <==> 2 <= cycle <= 256
    ensures r == CopyX <==> cycle == 257
    ensures r == IncrementY <==> cycle == 258
    ensures r == Sprites <==> cycle == 259
    ensures r == CopyY <==> 280 <= cycle <= 304
    ensures r == FlushTileData <==> cycle == 321
    ensures r == Prefetch <==> 322 <= cycle <= 336
    ensures r == MapperTick <==> cycle == 340
    ensures r == Idle <==> 260 <= cycle <= 279 || 305 <= cycle <= 320 || 337 <= cycle <= 339 || cycle > 340
  {
    if cycle == 0 then Zero
    else if cycle == 1 then One
    else if cycle > 1 && cycle < 257 then Visible
    else if cycle == 321 then FlushTileData
    else if cycle > 321 && cycle < 337 then Prefetch
    else if cycle == 259 then Sprites
    else if cycle == 258 then IncrementY
    else if cycle == 257 then CopyX
    else if cycle > 279 && cycle < 305 then CopyY
    else if cycle == 340 then MapperTick
    else Idle
  }

  /** `getScanLineType`, stated as the lines each type covers. */
  function ScanLineTypeOf(scanline: nat): (r: ScanLineType)
    ensures r == VisibleLine <==> scanline < 240
    ensures r == VBlankLine <==> scanline == 241
    ensures r == PreLine <==> scanline == 261
    ensures r == IdleLine <==> scanline == 240 || 242 <= scanline <= 260 || scanline > 261
  {
    if scanline < 240 then VisibleLine
    else if scanline == 241 then VBlankLine
    else if scanline == 261 then PreLine
    else IdleLine
  }

  /** `incrementCounters`: the new cycle, scanline and odd-frame flag. */
  function NextCounters(cycle: nat, scanline: nat, f: bit, showBackground: bit): (nat, nat, bit)
  {
    var c := cycle + 1;
    var skip := scanline == 261 && c == 340 && showBackground != 0 && f == 1;
    var (c, f) := if skip then (c + 1, 0) else (c, f);
    if c == 341 then (0, if scanline + 1 == 262 then 0 else scanline + 1, f) else (c, scanline, f)
  }

  // ---------------------------------------------------------------------------------------
  // Tiles

  /** One pixel of a tile row: attribute bits 2-3 over one bit from each pattern plane. */
  function TilePixel(attribute: nat, low: Option<byte>, high: Option<byte>, shift: nat): nat
  {
    attribute + Bits.Bit(OrZero(low), shift) + 2 * Bits.Bit(OrZero(high), shift)
  }

  /** The eight pixels `readTileRow` appends, left to right: the pattern bits are taken from
      bit 7 down, or from bit 0 up for a horizontally mirrored sprite. */
  function TileRow(attribute: nat, low: Option<byte>, high: Option<byte>, reversed: bool): (r: seq<nat>)
    requires attribute % 4 == 0 && attribute < 16
    ensures |r| == 8
    ensures forall k :: 0 <= k < 8 ==> r[k] < 16 && r[k] / 4 == attribute / 4
  {
    seq(8, tileX requires 0 <= tileX < 8 => TilePixel(attribute, low, high, if reversed then tileX else 7 - tileX))
  }

  function NameTableAddress(v: nat): (r: nat)
    ensures 0x2000 <= r < 0x3000
  {
    0x2000 + v % 0x1000
  }

  /** `0x23c0 | (v & 0x0c00) | ((v >> 4) & 0x38) | ((v >> 2) & 0x07)`: the four fields are
      disjoint bit ranges, so the `|`s are sums. */
  function AttributeAddress(v: nat): (r: nat)
    ensures 0x23c0 <= r < 0x3000
  {
    0x23c0 + v / 0x400 % 4 * 0x400 + v / 0x80 % 8 * 8 + v / 4 % 8
  }

  /** `((v >> 4) & 4) | (v & 2)`: which 2-bit field of the attribute byte applies. */
  function AttributeShift(v: nat): nat
  {
    v / 0x40 % 2 * 4 + v / 2 % 2 * 2
  }

  /** `0x1000 * table + nameTableByte * 16 + fineY`: the low-plane address of a background
      tile row, always in CHR memory. */
  function PatternAddress(table: bit, tile: byte, fineY: nat): (r: nat)
    requires fineY < 8
    ensures r + 8 < 0x2000
  {
    0x1000 * table + tile * 16 + fineY
  }

  /** `((attributeByte >> shift) & 3) << 2`. */
  function AttributeBits(attribute: Option<byte>, shift: nat): (r: nat)
    ensures r % 4 == 0 && r < 16
  {
    OrZero(attribute) / Bits.Pow2(shift) % 4 * 4
  }

  /** Drops the first pixel, as `Array.shift` does; an empty buffer stays empty. */
  function Shift(buffer: seq<nat>): seq<nat>
  {
    if |buffer| == 0 then buffer else buffer[1..]
  }

  /** `fetchAndStoreBackgroundRow`. A name table byte read as `undefined` (the upper two
      tables in four-screen mode) turns the pattern address into NaN, and the pattern read
      then throws; the attribute byte has already been stored by then. */
  function FetchBackground(s: PpuState): (r: (PpuState, Result<()>))
    requires Good(s)
    ensures Good(r.0) && r.0.cycle == s.cycle && r.0.scanline == s.scanline && r.0.interrupt == s.interrupt
    ensures r.0.v == s.v && r.0.t == s.t && r.0.sprites == s.sprites && r.0.spriteCount == s.spriteCount
    ensures r.0.vram == s.vram && r.0.ctrl == s.ctrl && r.0.mask == s.mask
    ensures r.0.cycleType == s.cycleType && r.0.nmiOccurred == s.nmiOccurred
    ensures r.1.Err? ==> s.vram.mapper.mirrorType == QUADRUPLE_SCREEN
  {
    var name := Lookup(s.vram.names, Resolve(s.vram.mapper.mirrorType, NameTableAddress(s.v)));
    var attribute := Lookup(s.vram.names, Resolve(s.vram.mapper.mirrorType, AttributeAddress(s.v)));
    var s1 := s.(attributeTableByte := AttributeBits(attribute, AttributeShift(s.v)));
    if name.None? then (s1, Err(UndefinedRead(NameTableAddress(s.v))))
    else
      var address := PatternAddress(s.ctrl.backgroundTable, name.value, FineY(s.v));
      var low := Mappers.Read(s.vram.mapper, address);
      var high := Mappers.Read(s.vram.mapper, address + 8);
      (s1.(lowTileByte := low, highTileByte := high,
           backgroundTileBuffer := s.backgroundTileBuffer + TileRow(s1.attributeTableByte, low, high, false)),
       Ok(()))
  }

  // ---------------------------------------------------------------------------------------
  // Sprites

  function SpriteSize(ctrl: Control): (r: nat)
    ensures r == 8 || r == 16
  {
    if ctrl.spriteSize != 0 then 16 else 8
  }

  /** Whether OAM sprite `i` covers the scanline: `0 <= scanline - y < size`. */
  predicate OnScanline(oam: seq<byte>, i: nat, scanline: int, size: nat)
    requires |oam| == OAM_SIZE && i < 64
  {
    0 <= scanline - oam[4 * i] < size
  }

  /** The OAM indices below `n` whose sprite covers the scanline, in OAM order. */
  function Hits(oam: seq<byte>, scanline: int, size: nat, n: nat): (r: seq<nat>)
    requires |oam| == OAM_SIZE && n <= 64
    ensures |r| <= n
    ensures forall k :: 0 <= k < |r| ==> r[k] < n && OnScanline(oam, r[k], scanline, size)
    ensures forall k, l :: 0 <= k < l < |r| ==> r[k] < r[l]
  {
    if n == 0 then []
    else if OnScanline(oam, n - 1, scanline, size) then Hits(oam, scanline, size, n - 1) + [n - 1]
    else Hits(oam, scanline, size, n - 1)
  }

  /** Where `fetchSpriteRow` reads a sprite row: the pattern address of the low plane, the
      palette bits and the horizontal mirroring. */
  datatype SpriteFetch = SpriteFetch(address: nat, attribute: nat, reversed: bool)

  /** The row `row` of sprite `i`: in 8x16 mode bit 0 of the tile picks the table and the
      bottom half is the next tile; vertical mirroring counts rows from the bottom. Every
      such row lies in CHR memory. */
  function FetchOf(oam: seq<byte>, ctrl: Control, i: nat, row: nat): (r: SpriteFetch)
    requires |oam| == OAM_SIZE && i < 64 && row < SpriteSize(ctrl)
    ensures r.address + 8 < 0x2000 && r.attribute % 4 == 0 && r.attribute < 16
  {
    var tile := oam[4 * i + 1];
    var attributes := oam[4 * i + 2];
    var (table, tile) := if ctrl.spriteSize == 0 then (ctrl.spriteTable, tile) else (tile % 2, tile - tile % 2);
    var row := if attributes >= 0x80 then SpriteSize(ctrl) - 1 - row else row;
    var (tile, row) := if row > 7 then (tile + 1, row % 8) else (tile, row);
    SpriteFetch(0x1000 * table + tile * 16 + row, attributes % 4 * 4, attributes / 0x40 % 2 == 1)
  }

  /** The two pattern bytes `fetchSpriteRow` reads for sprite `i` on the scanline. */
  function SpriteBytes(vram: VramState, ctrl: Control, scanline: int, i: nat): (r: (Option<byte>, Option<byte>))
    requires |vram.mapper.sram| == Mappers.SRAM_SIZE && |vram.oam| == OAM_SIZE && i < 64
    requires OnScanline(vram.oam, i, scanline, SpriteSize(ctrl))
  {
    var fetch := FetchOf(vram.oam, ctrl, i, scanline - vram.oam[4 * i]);
    (Mappers.Read(vram.mapper, fetch.address), Mappers.Read(vram.mapper, fetch.address + 8))
  }

  /** The slot sprite evaluation stores for sprite `i`. */
  function StoredSprite(vram: VramState, ctrl: Control, scanline: int, i: nat): (r: Sprite)
    requires |vram.mapper.sram| == Mappers.SRAM_SIZE && |vram.oam| == OAM_SIZE && i < 64
    requires OnScanline(vram.oam, i, scanline, SpriteSize(ctrl))
    ensures |r.buffer| == 8 && r.index == i
  {
    var fetch := FetchOf(vram.oam, ctrl, i, scanline - vram.oam[4 * i]);
    var (low, high) := SpriteBytes(vram, ctrl, scanline, i);
    Sprite(TileRow(fetch.attribute, low, high, fetch.reversed), vram.oam[4 * i + 3], vram.oam[4 * i + 2] / 32 % 2, i)
  }

  /** `fetchAndStoreSpriteRows`, by what it finds: the first eight sprites on the scanline, in
      OAM order, fill the first slots; a ninth sets the overflow flag; later slots keep their
      old contents, and the tile bytes are those of the last sprite stored. */
  function EvaluateSprites(s: PpuState): (r: PpuState)
    requires Good(s)
    ensures Good(r)
    ensures r == s.(spriteCount := r.spriteCount, spriteOverflow := r.spriteOverflow, sprites := r.sprites,
                    lowTileByte := r.lowTileByte, highTileByte := r.highTileByte)
  {
    var hits := Hits(s.vram.oam, s.scanline, SpriteSize(s.ctrl), 64);
    var n := if |hits| > 8 then 8 else |hits|;
    s.(spriteCount := n,
       spriteOverflow := if |hits| > 8 then 1 else s.spriteOverflow,
       sprites := seq(8, k requires 0 <= k < 8 =>
                          if k < n then StoredSprite(s.vram, s.ctrl, s.scanline, hits[k]) else s.sprites[k]),
       lowTileByte := if n > 0 then SpriteBytes(s.vram, s.ctrl, s.scanline, hits[n - 1]).0 else s.lowTileByte,
       highTileByte := if n > 0 then SpriteBytes(s.vram, s.ctrl, s.scanline, hits[n - 1]).1 else s.highTileByte)
  }

  // ---------------------------------------------------------------------------------------
  // Pixels

  /** `getCurrentBackgroundPixel`: fine X picks the pixel; a missing entry counts as 0. */
  function BackgroundPixel(s: PpuState): (r: nat)
    ensures r < 16
  {
    if s.mask.showBackground == 0 then 0
    else if s.x < |s.backgroundTileBuffer| then s.backgroundTileBuffer[s.x] % 16 else 0
  }

  /** The 4-bit pixel a sprite slot has at a screen column; a column outside its eight counts
      as transparent, which `getCurrentSpritePixel` skips just as it skips a transparent pixel. */
  function SpriteColorAt(sprite: Sprite, column: int): (r: nat)
    ensures r < 16
  {
    var offset := column - sprite.x;
    if offset < 0 || offset > 7 then 0
    else if offset < |sprite.buffer| then sprite.buffer[offset] % 16 else 0
  }

  /** The first slot from `i` on with an opaque pixel at the column, and its colour with bit 4
      (the sprite palettes) set; (0, 0) when there is none. */
  function SpritePixelFrom(sprites: seq<Sprite>, count: nat, column: int, i: nat): (r: (nat, nat))
    requires count <= |sprites|
    ensures r.1 == 0 ==> r.0 == 0
    ensures r.1 != 0 ==> i <= r.0 < count && 16 <= r.1 < 32 && r.1 % 4 != 0
    decreases count - i
  {
    if i >= count then (0, 0)
    else
      var color := SpriteColorAt(sprites[i], column);
      if color % 4 == 0 then SpritePixelFrom(sprites, count, column, i + 1) else (i, color + 16)
  }

  /** `getCurrentSpritePixel`. */
  function SpritePixel(s: PpuState, column: int): (r: (nat, nat))
    requires Good(s)
    ensures r.0 < 8
  {
    if s.mask.showSprites == 0 then (0, 0) else SpritePixelFrom(s.sprites, s.spriteCount, column, 0)
  }

  /** A rendered pixel: its palette address, whether it came from the background, and whether
      it raises the sprite-zero hit. */
  datatype Pixel = Pixel(color: nat, isBackground: bool, zeroHit: bool)

  /** The priority decision of `renderPixel`. */
  function Priority(column: int, background: nat, sprite: Sprite, spriteColor: nat): Pixel
  {
    if background % 4 == 0 && spriteColor % 4 == 0 then Pixel(0, true, false)
    else if background % 4 == 0 then Pixel(spriteColor, false, false)
    else if spriteColor % 4 == 0 then Pixel(background, true, false)
    else
      var hit := sprite.index == 0 && column < 255;
      if sprite.priority == 0 then Pixel(spriteColor, false, hit) else Pixel(background, true, hit)
  }

  /** The pixel `renderPixel` resolves at the current dot; the leftmost eight columns can hide
      the background or the sprites. */
  function PixelAt(s: PpuState): Pixel
    requires Good(s)
  {
    var column := s.cycle - 1;
    var background := if column < 8 && s.mask.showLeftBackground == 0 then 0 else BackgroundPixel(s);
    var (index, color) := if column < 8 && s.mask.showLeftSprites == 0 then (0, 0) else SpritePixel(s, column);
    Priority(column, background, s.sprites[index], color)
  }

  function Render(s: PpuState): (r: PpuState)
    requires Good(s)
    ensures Good(r)
    ensures r == s.(color := r.color, isBackgroundPixel := r.isBackgroundPixel, spriteZeroHit := r.spriteZeroHit)
  {
    var p := PixelAt(s);
    s.(color := p.color, isBackgroundPixel := p.isBackground,
       spriteZeroHit := if p.zeroHit then 1 else s.spriteZeroHit)
  }

  // ---------------------------------------------------------------------------------------
  // Scanlines and the tick

  /** `updateScrollingY`: the Y increment at dot 258 and the horizontal copy at dot 257. */
  function ScrollY(s: PpuState): (r: PpuState)
    ensures r == s.(v := r.v, y := r.y)
  {
    var (v, y) := ScrollYOf(s.cycleType, s.v, s.y, s.t);
    s.(v := v, y := y)
  }

  /** The `v` and coarse Y scratch value after `updateScrollingY` on a dot of type `kind`. */
  function ScrollYOf(kind: CycleType, v: nat, y: nat, t: nat): (r: (nat, nat))
  {
    match kind
    case IncrementY => YIncrement(v, y)
    case CopyX => (HorizontalCopy(v, t), y)
    case _ => (v, y)
  }

  /** Every eighth dot: fetch the next background tile (when `fetch`), then move to the next
      coarse X; a failed fetch stops there. */
  function FetchAndScroll(s: PpuState, fetch: bool): (r: (PpuState, Result<()>))
    requires Good(s)
    ensures Good(r.0) && r.0.cycle == s.cycle && r.0.scanline == s.scanline && r.0.interrupt == s.interrupt
    ensures r.0.cycleType == s.cycleType && r.0.vram == s.vram && r.0.ctrl == s.ctrl && r.0.mask == s.mask
    ensures r.0.nmiOccurred == s.nmiOccurred
    ensures r.1.Err? ==> s.vram.mapper.mirrorType == QUADRUPLE_SCREEN
  {
    var (s1, e) := if fetch then FetchBackground(s) else (s, Ok(()));
    if e.Err? then (s1, e) else (s1.(v := CoarseXIncrement(s1.v)), Ok(()))
  }

  /** The background work of the pre-render and visible lines: drop one pixel, and on every
      eighth dot fetch (before dot 256) and scroll. */
  function ShiftFetchScroll(s: PpuState): (r: (PpuState, Result<()>))
    requires Good(s)
    ensures Good(r.0) && r.0.cycle == s.cycle && r.0.scanline == s.scanline && r.0.interrupt == s.interrupt
    ensures r.0.cycleType == s.cycleType && r.0.vram == s.vram && r.0.ctrl == s.ctrl && r.0.mask == s.mask
    ensures r.0.nmiOccurred == s.nmiOccurred
    ensures r.1.Err? ==> s.vram.mapper.mirrorType == QUADRUPLE_SCREEN
  {
    var s1 := s.(backgroundTileBuffer := Shift(s.backgroundTileBuffer));
    if s1.cycle % 8 == 0 then FetchAndScroll(s1, s1.cycle < 256) else (s1, Ok(()))
  }

  /** `doPreline`. The mapper's `tick` is false for every modelled mapper, so the line raises
      no interrupt. */
  function DoPreline(s: PpuState): (r: (PpuState, Result<Option<Interrupt>>))
    requires Good(s)
    ensures Good(r.0) && r.0.cycle == s.cycle && r.0.scanline == s.scanline && r.0.interrupt == s.interrupt
    ensures r.0.vram == s.vram && r.0.mask == s.mask
    ensures r.1.Ok? ==> r.1.value == None
    ensures r.1.Err? ==> s.vram.mapper.mirrorType == QUADRUPLE_SCREEN
  {
    var kind := s.cycleType;
    var (s1, e) := if kind == One || kind == Visible || kind == Prefetch then ShiftFetchScroll(s) else (s, Ok(()));
    if e.Err? then (s1, Err(e.fault)) else (PrelineRegisters(s1), Ok(None))
  }

  /** The register work of `doPreline` after the background step: the sprite count cleared at
      dot 257, the vertical copy on dots 280-304, the Y scroll, and the vblank flag cleared
      and the frame marked complete at dot 1. */
  function PrelineRegisters(s: PpuState): (r: PpuState)
    requires Good(s)
    ensures Good(r) && r.cycle == s.cycle && r.scanline == s.scanline && r.interrupt == s.interrupt
    ensures r.vram == s.vram && r.mask == s.mask
  {
    var kind := s.cycleType;
    var s2 := if kind == Sprites then s.(spriteCount := 0) else s;
    var s3 := if kind == CopyY then s2.(v := VerticalCopy(s2.v, s2.t)) else s2;
    var s4 := ScrollY(s3);
    if kind == One then s4.(nmiOccurred := 0, frameReady := true) else s4
  }

  /** The background work of a visible line: the pre-render line's on the visible dots, the
      tile buffer emptied at dot 321, and the next line's first tiles fetched on the eighth
      dots from 322 on. */
  function VisibleBackground(s: PpuState): (r: (PpuState, Result<()>))
    requires Good(s)
    ensures Good(r.0) && r.0.cycle == s.cycle && r.0.scanline == s.scanline && r.0.interrupt == s.interrupt
    ensures r.0.cycleType == s.cycleType && r.0.vram == s.vram && r.0.ctrl == s.ctrl && r.0.mask == s.mask
    ensures r.0.nmiOccurred == s.nmiOccurred
    ensures r.1.Err? ==> s.vram.mapper.mirrorType == QUADRUPLE_SCREEN
  {
    if s.cycleType == Visible then ShiftFetchScroll(s)
    else if s.cycleType == FlushTileData then (s.(backgroundTileBuffer := []), Ok(()))
    else if s.cycleType == Prefetch && s.cycle % 8 == 0 then FetchAndScroll(s, true)
    else (s, Ok(()))
  }

  /** `doVisibleLine`: render, fetch background tiles, scroll, and evaluate the sprites of the
      next line at dot 259. */
  function DoVisibleLine(s: PpuState): (r: (PpuState, Result<Option<Interrupt>>))
    requires Good(s)
    ensures Good(r.0) && r.0.cycle == s.cycle && r.0.scanline == s.scanline && r.0.interrupt == s.interrupt
    ensures r.0.vram == s.vram && r.0.mask == s.mask && r.0.nmiOccurred == s.nmiOccurred
    ensures r.1.Ok? ==> r.1.value == None
    ensures r.1.Err? ==> s.vram.mapper.mirrorType == QUADRUPLE_SCREEN
  {
    var kind := s.cycleType;
    var s1 := if kind == One || kind == Visible then Render(s) else s;
    var (s2, e) := VisibleBackground(s1);
    if e.Err? then (s2, Err(e.fault))
    else (VisibleTail(s2, kind == Sprites), Ok(None))
  }

  /** The end of a visible dot's work: the vertical scroll step, then the sprite evaluation
      when asked for. */
  function VisibleTail(s: PpuState, sprites: bool): (r: PpuState)
    requires Good(s)
    ensures Good(r) && r.cycle == s.cycle && r.scanline == s.scanline && r.interrupt == s.interrupt
    ensures r.vram == s.vram && r.mask == s.mask && r.nmiOccurred == s.nmiOccurred
  {
    var s1 := ScrollY(s);
    if sprites then EvaluateSprites(s1) else s1
  }

  /** `doVBlankLine`: at dot 1 the vblank flag rises, and with NMI output enabled so does
      the NMI. */
  function DoVBlankLine(s: PpuState): (r: (PpuState, Option<Interrupt>))
  {
    var s1 := if s.cycleType == Sprites then s.(spriteCount := 0) else s;
    if s1.cycleType == One then
      (s1.(nmiOccurred := 1), if s1.nmiOutput != 0 then Some(Nmi) else None)
    else (s1, None)
  }

  /** Whether background or sprite rendering is on. */
  predicate Rendering(s: PpuState)
  {
    s.mask.showBackground != 0 || s.mask.showSprites != 0
  }

  /** The line's work within `tick`, once the dot is classified: the vblank line always runs
      and sets the interrupt field; the pre-render and visible lines run only with rendering
      on; with rendering off the interrupt field is cleared. On an idle line with rendering
      on, the interrupt field is not assigned. */
  function RunLine(s: PpuState): (r: (PpuState, Result<()>))
    requires Good(s)
  {
    if s.scanlineType == VBlankLine then
      var (s', i) := DoVBlankLine(s); (s'.(interrupt := i), Ok(()))
    else if Rendering(s) then
      if s.scanlineType == PreLine || s.scanlineType == VisibleLine then
        var (s', r) := if s.scanlineType == PreLine then DoPreline(s) else DoVisibleLine(s);
        if r.Err? then (s', Err(r.fault)) else (s'.(interrupt := r.value), Ok(()))
      else (s, Ok(()))
    else (s.(interrupt := None), Ok(()))
  }

  /** `tick`: classify the dot, run the line's work, advance the counters and return the
      interrupt field. A throw from the line's work leaves the counters where they were. */
  function Tick(s: PpuState): (r: (PpuState, Result<Option<Interrupt>>))
    requires Good(s)
  {
    var s1 := s.(cycleType := CycleTypeOf(s.cycle), scanlineType := ScanLineTypeOf(s.scanline));
    var (s2, e) := RunLine(s1);
    if e.Err? then (s2, Err(e.fault))
    else
      var (c, l, f) := NextCounters(s2.cycle, s2.scanline, s2.f, s2.mask.showBackground);
      var s3 := s2.(cycle := c, scanline := l, f := f);
      (s3, Ok(s3.interrupt))
  }

  /** `acknowledgeFrame`: the frame is consumed; with sprites shown, the overflow and
      sprite-zero flags are cleared for the next one. */
  function AcknowledgeFrame(s: PpuState): PpuState
  {
    if s.mask.showSprites == 1 then s.(frameReady := false, spriteOverflow := 0, spriteZeroHit := 0)
    else s.(frameReady := false)
  }

  /** `reset`: VRAM zeroed, counters at the pre-render line, registers and flags cleared. */
  function Reset(s: PpuState): PpuState
  {
    s.(vram := s.vram.(names := seq(|s.vram.names|, _ => 0), palette := seq(|s.vram.palette|, _ => 0),
                       oam := seq(|s.vram.oam|, _ => 0)),
       cycle := 0, scanline := 261, v := 0, t := 0, x := 0, w := 0, f := 0,
       register := 0, nmiOccurred := 0, nmiOutput := 0, lowTileByte := Some(0), highTileByte := Some(0),
       spriteCount := 0, ctrl := CONTROL_ZERO, mask := MASK_ZERO, spriteZeroHit := 0, spriteOverflow := 0,
       oamAddress := 0, bufferedData := Some(0), frameReady := false)
  }
}
