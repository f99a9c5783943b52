/** Properties of the PPU model: the register protocol the CPU sees, the scroll arithmetic
    field by field, the dot counter, sprite selection, pixel priority and the vblank NMI. */
module PpuFacts {
  import opened Wrappers
  import Bits
  import opened Common
  import opened Mirroring
  import opened VideoMemory
  import VideoMemoryFacts
  import opened PpuModel
  import Mappers

  // ---------------------------------------------------------------------------------------
  // Arithmetic on bit fields

  /** Division with remainder is unique. */
  lemma Euclid(p: nat, q: nat, s: nat)
    requires 0 <= s < p
    ensures (p * q + s) / p == q && (p * q + s) % p == s
  {
    Bits.DivOfMultiple(p, q, s);
  }

  /** A 16-bit loopy value from its six fields. */
  function Pack(cx: nat, cy: nat, nx: nat, ny: nat, fy: nat, tb: nat): nat
  {
    cx + 32 * cy + 0x400 * nx + 0x800 * ny + 0x1000 * fy + 0x8000 * tb
  }

  /** Packed fields read back, and the quotients and remainders the masks use. */
  lemma Unpack(cx: nat, cy: nat, nx: nat, ny: nat, fy: nat, tb: nat)
    requires cx < 32 && cy < 32 && nx < 2 && ny < 2 && fy < 8 && tb < 2
    ensures var r := Pack(cx, cy, nx, ny, fy, tb);
            && r < 0x10000 && r % 0x10000 == r
            && CoarseX(r) == cx && CoarseY(r) == cy && NameTableX(r) == nx && NameTableY(r) == ny
            && FineY(r) == fy && TopBit(r) == tb
            && r / 32 == cy + 32 * nx + 64 * ny + 128 * fy + 1024 * tb
            && r / 0x400 == nx + 2 * ny + 4 * fy + 32 * tb
            && r / 0x800 == ny + 2 * fy + 16 * tb
            && r / 0x1000 == fy + 8 * tb
            && r / 0x8000 == tb
            && r % 0x400 == cx + 32 * cy
            && r % 0x800 == cx + 32 * cy + 0x400 * nx
            && r % 0x1000 == cx + 32 * cy + 0x400 * nx + 0x800 * ny
            && r % 0x8000 == cx + 32 * cy + 0x400 * nx + 0x800 * ny + 0x1000 * fy
  {
    UnpackQuotients(cx, cy, nx, ny, fy, tb);
    Euclid(32, nx + 2 * ny + 4 * fy + 32 * tb, cy);
    Euclid(2, ny + 2 * fy + 16 * tb, nx);
    Euclid(2, fy + 8 * tb, ny);
    Euclid(8, tb, fy);
    Euclid(2, 0, tb);
  }

  /** The quotients and remainders of a packed value by the field boundaries. */
  lemma UnpackQuotients(cx: nat, cy: nat, nx: nat, ny: nat, fy: nat, tb: nat)
    requires cx < 32 && cy < 32 && nx < 2 && ny < 2 && fy < 8 && tb < 2
    ensures var r := Pack(cx, cy, nx, ny, fy, tb);
            && r < 0x10000 && r % 0x10000 == r && r % 32 == cx
            && r / 32 == cy + 32 * nx + 64 * ny + 128 * fy + 1024 * tb
            && r / 0x400 == nx + 2 * ny + 4 * fy + 32 * tb
            && r / 0x800 == ny + 2 * fy + 16 * tb
            && r / 0x1000 == fy + 8 * tb
            && r / 0x8000 == tb
            && r % 0x400 == cx + 32 * cy
            && r % 0x800 == cx + 32 * cy + 0x400 * nx
            && r % 0x1000 == cx + 32 * cy + 0x400 * nx + 0x800 * ny
            && r % 0x8000 == cx + 32 * cy + 0x400 * nx + 0x800 * ny + 0x1000 * fy
  {
    var r := Pack(cx, cy, nx, ny, fy, tb);
    Euclid(32, cy + 32 * nx + 64 * ny + 128 * fy + 1024 * tb, cx);
    Euclid(0x400, nx + 2 * ny + 4 * fy + 32 * tb, cx + 32 * cy);
    Euclid(0x800, ny + 2 * fy + 16 * tb, cx + 32 * cy + 0x400 * nx);
    Euclid(0x1000, fy + 8 * tb, cx + 32 * cy + 0x400 * nx + 0x800 * ny);
    Euclid(0x8000, tb, cx + 32 * cy + 0x400 * nx + 0x800 * ny + 0x1000 * fy);
    Euclid(0x10000, 0, r);
  }

  /** The low 16 bits of any value are its six fields packed. */
  lemma Split(a: nat)
    ensures a % 0x10000 == Pack(CoarseX(a), CoarseY(a), NameTableX(a), NameTableY(a), FineY(a), TopBit(a))
    ensures a % 0x400 == CoarseX(a) + 32 * CoarseY(a)
    ensures a % 0x1000 == CoarseX(a) + 32 * CoarseY(a) + 0x400 * NameTableX(a) + 0x800 * NameTableY(a)
    ensures a % 0x8000 == Pack(CoarseX(a), CoarseY(a), NameTableX(a), NameTableY(a), FineY(a), 0)
  {
    Layer(a, 32, 32);
    Layer(a, 0x400, 2);
    Layer(a, 0x800, 2);
    Layer(a, 0x1000, 8);
    Layer(a, 0x8000, 2);
  }

  /** The remainder by `p * k` is the remainder by `p` plus the next digit in base `p`. */
  lemma Layer(a: nat, p: nat, k: nat)
    requires p > 0 && k > 0
    ensures a % (p * k) == a % p + p * (a / p % k)
  {
    var q, r := a / p, a % p;
    var q1, r1 := q / k, q % k;
    assert a == p * q + r;
    assert q == k * q1 + r1;
    assert p * q == (p * k) * q1 + p * r1;
    assert p * r1 + r < p * k by {
      assert r1 + 1 <= k;
      Bits.MulMono(p, r1 + 1, k);
    }
    Euclid(p * k, q1, p * r1 + r);
  }

  /** A byte from its eight bits, lowest first. */
  lemma ByteBits(value: byte)
    ensures value == value % 2 + 2 * (value / 2 % 2) + 4 * (value / 4 % 2) + 8 * (value / 8 % 2)
                     + 16 * (value / 16 % 2) + 32 * (value / 32 % 2) + 64 * (value / 64 % 2) + 128 * (value / 128)
    ensures value / 128 < 2
  {
    var a1 := value / 2;
    var a2 := a1 / 2;
    var a3 := a2 / 2;
    var a4 := a3 / 2;
    var a5 := a4 / 2;
    var a6 := a5 / 2;
    var a7 := a6 / 2;
    var b0, b1, b2, b3, b4, b5, b6 := value % 2, a1 % 2, a2 % 2, a3 % 2, a4 % 2, a5 % 2, a6 % 2;
    assert value == 2 * a1 + b0 && a1 == 2 * a2 + b1 && a2 == 2 * a3 + b2;
    assert a3 == 2 * a4 + b3 && a4 == 2 * a5 + b4 && a5 == 2 * a6 + b5 && a6 == 2 * a7 + b6;
    assert value / 4 == a2 by {
      assert value == 4 * a2 + (b0 + 2 * b1);
      Euclid(4, a2, b0 + 2 * b1);
    }
    assert value / 8 == a3 by {
      assert value == 8 * a3 + (b0 + 2 * b1 + 4 * b2);
      Euclid(8, a3, b0 + 2 * b1 + 4 * b2);
    }
    assert value / 16 == a4 by {
      assert value == 16 * a4 + (b0 + 2 * b1 + 4 * b2 + 8 * b3);
      Euclid(16, a4, b0 + 2 * b1 + 4 * b2 + 8 * b3);
    }
    assert value / 32 == a5 by {
      assert value == 32 * a5 + (b0 + 2 * b1 + 4 * b2 + 8 * b3 + 16 * b4);
      Euclid(32, a5, b0 + 2 * b1 + 4 * b2 + 8 * b3 + 16 * b4);
    }
    assert value / 64 == a6 by {
      assert value == 64 * a6 + (b0 + 2 * b1 + 4 * b2 + 8 * b3 + 16 * b4 + 32 * b5);
      Euclid(64, a6, b0 + 2 * b1 + 4 * b2 + 8 * b3 + 16 * b4 + 32 * b5);
    }
    assert value / 128 == a7 by {
      assert value == 128 * a7 + (b0 + 2 * b1 + 4 * b2 + 8 * b3 + 16 * b4 + 32 * b5 + 64 * b6);
      Euclid(128, a7, b0 + 2 * b1 + 4 * b2 + 8 * b3 + 16 * b4 + 32 * b5 + 64 * b6);
    }
  }

  // ---------------------------------------------------------------------------------------
  // Registers

  /** A PPUCTRL write decodes every bit of the byte: the fields put back together give the
      written value. */
  lemma ControlDecodesEveryBit(value: byte)
    ensures var c := ControlOf(value);
            c.nameTable + 4 * c.increment + 8 * c.spriteTable + 16 * c.backgroundTable
            + 32 * c.spriteSize + 64 * c.masterSlave + 128 * (value / 128) == value
  {
    ByteBits(value);
    Layer(value, 2, 2);
  }

  /** A PPUMASK write decodes every bit of the byte. */
  lemma MaskDecodesEveryBit(value: byte)
    ensures var m := MaskOf(value);
            m.grayscale + 2 * m.showLeftBackground + 4 * m.showLeftSprites + 8 * m.showBackground
            + 16 * m.showSprites + 32 * m.redTint + 64 * m.greenTint + 128 * m.blueTint == value
  {
    ByteBits(value);
  }

  /** Reading PPUSTATUS: bits 0-4 echo the last register write, bit 5 is sprite overflow,
      bit 6 sprite-zero hit, bit 7 the vblank flag except on dot 2 of line 241; the read
      clears the vblank flag and the write toggle and changes nothing else. */
  lemma StatusRead(s: PpuState)
    requires Good(s)
    ensures var (s', r) := ReadRegister(s, 0x2002);
            && s' == s.(nmiOccurred := 0, w := 0) && r.Ok? && r.value.Some?
            && r.value.value % 32 == s.register % 32
            && r.value.value / 32 % 2 == s.spriteOverflow
            && r.value.value / 64 % 2 == s.spriteZeroHit
            && r.value.value / 128 == (if s.nmiOccurred == 1 && !(s.cycle == 2 && s.scanline == 241) then 1 else 0)
  {
  }

  /** A PPUCTRL write changes only bits 10-11 of `t` (to the low two bits of the value),
      keeping it to 16 bits, and leaves `v` alone. */
  lemma ControlWriteSetsNameTableBits(s: PpuState, value: byte)
    requires Good(s)
    ensures var s' := WriteRegister(s, 0x2000, value);
            && s'.t < 0x10000 && s'.t % 0x400 == s.t % 0x400
            && s'.t / 0x1000 == s.t % 0x10000 / 0x1000
            && s'.t / 0x400 % 4 == value % 4
            && s'.v == s.v && s'.w == s.w
  {
    ControlTFields(s.t, value);
  }

  /** `ControlT` replaces bits 10-11 of the low 16 bits of `t`. */
  lemma ControlTFields(t: nat, value: byte)
    ensures var r := ControlT(t, value);
            && r < 0x10000 && r % 0x400 == t % 0x400
            && r / 0x1000 == t % 0x10000 / 0x1000
            && r / 0x400 % 4 == value % 4
  {
    var high: int := t % 0x10000 / 0x1000;
    var mid: int := value % 4;
    var low: int := t % 0x400;
    assert high < 16;
    var r: int := ControlT(t, value);
    assert r == 0x400 * (4 * high + mid) + low;
    Euclid(0x400, 4 * high + mid, low);
    Euclid(4, high, mid);
    assert r == 0x1000 * high + (0x400 * mid + low);
    Euclid(0x1000, high, 0x400 * mid + low);
  }

  /** The two PPUSCROLL updates of `t` in turn: coarse X from the first byte, fine Y and
      coarse Y from the second, the name table bits and bit 15 kept. */
  lemma ScrollPairT(t: nat, first: byte, second: byte)
    ensures var r := ScrollSecondT(ScrollFirstT(t, first), second);
            && r < 0x10000
            && CoarseX(r) == first / 8 && FineY(r) == second % 8 && CoarseY(r) == second / 8
            && NameTableX(r) == NameTableX(t) && NameTableY(r) == NameTableY(t) && TopBit(r) == TopBit(t)
  {
    var cx, cy, nx, ny, fy, tb := CoarseX(t), CoarseY(t), NameTableX(t), NameTableY(t), FineY(t), TopBit(t);
    Split(t);
    ScrollFirstPack(t, cx, cy, nx, ny, fy, tb, first);
    ScrollSecondPack(first / 8, cy, nx, ny, fy, tb, second);
    Unpack(first / 8, second / 8, nx, ny, second % 8, tb);
  }

  /** The first PPUSCROLL byte replaces the coarse X field of a packed value. */
  lemma ScrollFirstPack(t: nat, cx: nat, cy: nat, nx: nat, ny: nat, fy: nat, tb: nat, value: byte)
    requires cx < 32 && cy < 32 && nx < 2 && ny < 2 && fy < 8 && tb < 2
    requires t % 0x10000 == Pack(cx, cy, nx, ny, fy, tb)
    ensures ScrollFirstT(t, value) == Pack(value / 8, cy, nx, ny, fy, tb)
  {
    Unpack(cx, cy, nx, ny, fy, tb);
    var q: int := t % 0x10000 / 32;
    assert q == cy + 32 * nx + 64 * ny + 128 * fy + 1024 * tb;
    assert ScrollFirstT(t, value) == q * 32 + value / 8;
  }

  /** The second PPUSCROLL byte replaces the fine Y and coarse Y fields of a packed value. */
  lemma ScrollSecondPack(cx: nat, cy: nat, nx: nat, ny: nat, fy: nat, tb: nat, value: byte)
    requires cx < 32 && cy < 32 && nx < 2 && ny < 2 && fy < 8 && tb < 2
    ensures ScrollSecondT(Pack(cx, cy, nx, ny, fy, tb), value) == Pack(cx, value / 8, nx, ny, value % 8, tb)
  {
    FineYReplaced(cx, cy, nx, ny, fy, tb, value % 8);
    CoarseYReplaced(cx, cy, nx, ny, value % 8, tb, value / 8);
  }

  /** The fine Y update replaces one field of a packed value. */
  lemma FineYReplaced(cx: nat, cy: nat, nx: nat, ny: nat, fy: nat, tb: nat, f: nat)
    requires cx < 32 && cy < 32 && nx < 2 && ny < 2 && fy < 8 && tb < 2 && f < 8
    ensures WithFineY(Pack(cx, cy, nx, ny, fy, tb), f) == Pack(cx, cy, nx, ny, f, tb)
  {
    Unpack(cx, cy, nx, ny, fy, tb);
  }

  /** The coarse Y update replaces one field of a packed value. */
  lemma CoarseYReplaced(cx: nat, cy: nat, nx: nat, ny: nat, fy: nat, tb: nat, c: nat)
    requires cx < 32 && cy < 32 && nx < 2 && ny < 2 && fy < 8 && tb < 2 && c < 32
    ensures WithCoarseY(Pack(cx, cy, nx, ny, fy, tb), c) == Pack(cx, c, nx, ny, fy, tb)
  {
    Unpack(cx, cy, nx, ny, fy, tb);
  }

  /** Two PPUSCROLL writes from a cleared toggle: the first sets coarse X and fine X, the
      second fine Y and coarse Y; the name table bits and bit 15 of `t` stay, `v` is
      untouched, and the toggle is cleared again. */
  lemma ScrollWritePair(s: PpuState, first: byte, second: byte)
    requires Good(s) && s.w == 0
    ensures var s1 := WriteRegister(s, 0x2005, first);
            var s2 := WriteRegister(s1, 0x2005, second);
            && s1.w == 1 && s2.w == 0 && s2.x == first % 8 && s2.v == s.v
            && s2.t == ScrollSecondT(ScrollFirstT(s.t, first), second)
  {
  }

  /** Two PPUADDR writes from a cleared toggle load `v` with the 14-bit address they spell
      (bit 15 of the old `t` kept, bit 14 cleared), and clear the toggle again. */
  lemma AddressWritePair(s: PpuState, high: byte, low: byte)
    requires Good(s) && s.w == 0
    ensures var s2 := WriteRegister(WriteRegister(s, 0x2006, high), 0x2006, low);
            && s2.w == 0
            && s2.v == s2.t == TopBit(s.t) * 0x8000 + high % 64 * 0x100 + low
  {
    AddressPairT(s.t, high, low);
  }

  /** The two PPUADDR updates of `t` in turn spell the address, bit 15 kept. */
  lemma AddressPairT(t: nat, high: byte, low: byte)
    ensures AddressSecondT(AddressFirstT(t, high), low) == TopBit(t) * 0x8000 + high % 64 * 0x100 + low
  {
    var top: int := t % 0x10000 / 0x8000;
    assert top == TopBit(t) by {
      Layer(t, 0x8000, 2);
      Euclid(0x8000, t / 0x8000 % 2, t % 0x8000);
    }
    var t1: int := top * 0x8000 + high % 64 * 0x100 + t % 0x100;
    assert AddressFirstT(t, high) == t1;
    var q: int := top * 0x80 + high % 64;
    assert t1 == 0x100 * q + t % 0x100;
    Euclid(0x100, q, t % 0x100);
    Euclid(0x10000, 0, t1);
  }

  /** A PPUDATA read below the palette returns the byte buffered by the previous read,
      buffers the byte at `v`, and moves `v` by 1 or 32; at or above 0x3f00 it fails and
      changes nothing. */
  lemma BufferedRead(s: PpuState)
    requires Good(s)
    ensures var (s', r) := ReadRegister(s, 0x2007);
            && (s.v % 0x4000 < 0x3f00 ==>
                  && r == Ok(s.bufferedData)
                  && s' == s.(bufferedData := VramRead(s.vram, s.v).value,
                              v := s.v + (if s.ctrl.increment == 0 then 1 else 32)))
            && (s.v % 0x4000 >= 0x3f00 ==> r.Err? && s' == s)
  {
  }

  /** Two PPUADDR writes from a cleared toggle point `v` at the address they spell, as the
      VRAM sees it, and leave the VRAM alone. */
  lemma AddressLoads(s: PpuState, high: byte, low: byte)
    requires Good(s) && s.w == 0
    ensures var s2 := WriteRegister(WriteRegister(s, 0x2006, high), 0x2006, low);
            && Good(s2) && s2.w == 0 && s2.vram == s.vram && s2.ctrl == s.ctrl
            && s2.v % 0x4000 == high % 64 * 0x100 + low
  {
    var a := high % 64 * 0x100 + low;
    AddressWritePair(s, high, low);
    Euclid(0x4000, 2 * TopBit(s.t), a);
  }

  /** The data port round trip: point `v` at a name table address with two PPUADDR writes,
      write a byte through PPUDATA, point `v` at it again, and read PPUDATA twice: the
      second read returns the byte written (the first returns the stale buffer). The
      address stays below 0x3ee0 so that the second read, one step further on, is still
      below the palette. */
  lemma DataPortRoundTrip(s: PpuState, high: byte, low: byte, value: byte)
    requires Good(s) && s.w == 0 && s.vram.mapper.mirrorType != QUADRUPLE_SCREEN
    requires 0x2000 <= high % 64 * 0x100 + low < 0x3ee0
    ensures var s1 := WriteRegister(WriteRegister(s, 0x2006, high), 0x2006, low);
            var s2 := WriteRegister(s1, 0x2007, value);
            var s3 := WriteRegister(WriteRegister(s2, 0x2006, high), 0x2006, low);
            var (s4, _) := ReadRegister(s3, 0x2007);
            ReadRegister(s4, 0x2007).1 == Ok(Some(value))
  {
    WriteThenReload(s, high, low, value);
    var s1 := WriteRegister(WriteRegister(s, 0x2006, high), 0x2006, low);
    var s2 := WriteRegister(s1, 0x2007, value);
    ReadTwice(WriteRegister(WriteRegister(s2, 0x2006, high), 0x2006, low), value);
  }

  /** The first half of the round trip: after the address, the write and the address again,
      `v` points at the byte written. */
  lemma WriteThenReload(s: PpuState, high: byte, low: byte, value: byte)
    requires Good(s) && s.w == 0 && s.vram.mapper.mirrorType != QUADRUPLE_SCREEN
    requires 0x2000 <= high % 64 * 0x100 + low < 0x3ee0
    ensures var s1 := WriteRegister(WriteRegister(s, 0x2006, high), 0x2006, low);
            var s2 := WriteRegister(s1, 0x2007, value);
            var s3 := WriteRegister(WriteRegister(s2, 0x2006, high), 0x2006, low);
            && Good(s3) && s3.v % 0x4000 < 0x3ee0 && VramRead(s3.vram, s3.v) == Ok(Some(value))
  {
    var s1 := WriteRegister(WriteRegister(s, 0x2006, high), 0x2006, low);
    AddressLoads(s, high, low);
    var s2 := WriteRegister(s1, 0x2007, value);
    assert s2.vram == VramWrite(s1.vram, s1.v, value) && s2.w == 0;
    VideoMemoryFacts.VramNameTableRoundTrip(s1.vram, s1.v, value);
    AddressLoads(s2, high, low);
  }

  /** The second half: two PPUDATA reads below the palette, the second returning the byte
      the first one buffered. */
  lemma ReadTwice(s: PpuState, value: byte)
    requires Good(s) && s.v % 0x4000 < 0x3ee0 && VramRead(s.vram, s.v) == Ok(Some(value))
    ensures var (s1, _) := ReadRegister(s, 0x2007);
            ReadRegister(s1, 0x2007).1 == Ok(Some(value))
  {
    BufferedRead(s);
    var (s1, _) := ReadRegister(s, 0x2007);
    assert s1.bufferedData == Some(value);
    assert s1.v % 0x4000 < 0x3f00 by {
      var inc := if s.ctrl.increment == 0 then 1 else 32;
      assert s1.v == 0x4000 * (s.v / 0x4000) + (s.v % 0x4000 + inc);
      Euclid(0x4000, s.v / 0x4000, s.v % 0x4000 + inc);
    }
    BufferedRead(s1);
  }

  // ---------------------------------------------------------------------------------------
  // Scrolling

  /** Coarse X below 31 steps by one; at 31 it wraps to 0 and flips the horizontal name
      table, keeping coarse Y, the vertical name table, fine Y and bit 15. */
  lemma CoarseXStep(v: nat)
    ensures CoarseX(v) < 31 ==> CoarseXIncrement(v) == v + 1 && CoarseX(v + 1) == CoarseX(v) + 1
    ensures CoarseX(v) == 31 ==>
              var r := CoarseXIncrement(v);
              && r < 0x10000 && CoarseX(r) == 0 && NameTableX(r) == 1 - NameTableX(v)
              && CoarseY(r) == CoarseY(v) && NameTableY(r) == NameTableY(v)
              && FineY(r) == FineY(v) && TopBit(r) == TopBit(v)
  {
    var cx, cy, nx, ny, fy, tb := CoarseX(v), CoarseY(v), NameTableX(v), NameTableY(v), FineY(v), TopBit(v);
    if cx < 31 {
      assert v == 32 * (v / 32) + cx;
      Euclid(32, v / 32, cx + 1);
    } else {
      Split(v);
      Unpack(cx, cy, nx, ny, fy, tb);
      var cleared := v % 0x10000 / 32 * 32;
      assert cleared == Pack(0, cy, nx, ny, fy, tb);
      Unpack(0, cy, nx, ny, fy, tb);
      assert CoarseXIncrement(v) == Pack(0, cy, 1 - nx, ny, fy, tb);
      Unpack(0, cy, 1 - nx, ny, fy, tb);
    }
  }

  /** The Y increment: fine Y below 7 steps by one (adding 0x1000); at 7 it wraps to 0 and
      coarse Y moves on: 29 wraps to 0 and flips the vertical name table, 31 wraps to 0
      without the flip, anything else steps by one; coarse X, the horizontal name table and
      bit 15 stay, and the `y` field holds the new coarse Y. */
  lemma YStep(v: nat, y: nat)
    ensures FineY(v) < 7 ==> YIncrement(v, y) == (v + 0x1000, y)
    ensures FineY(v) == 7 ==>
              var (r, y') := YIncrement(v, y);
              && r < 0x10000 && FineY(r) == 0 && CoarseY(r) == y'
              && y' == (if CoarseY(v) == 29 || CoarseY(v) == 31 then 0 else CoarseY(v) + 1)
              && NameTableY(r) == (if CoarseY(v) == 29 then 1 - NameTableY(v) else NameTableY(v))
              && CoarseX(r) == CoarseX(v) && NameTableX(r) == NameTableX(v) && TopBit(r) == TopBit(v)
  {
    var cx, cy, nx, ny, fy, tb := CoarseX(v), CoarseY(v), NameTableX(v), NameTableY(v), FineY(v), TopBit(v);
    if fy == 7 {
      var v1 := WithFineY(v, 0);
      assert v1 == Pack(cx, cy, nx, ny, 0, tb) by {
        Split(v);
        Unpack(cx, cy, nx, ny, fy, tb);
      }
      Unpack(cx, cy, nx, ny, 0, tb);
      var ny2 := if cy == 29 then 1 - ny else ny;
      var y2 := if cy == 29 || cy == 31 then 0 else cy + 1;
      if cy == 29 {
        NameTableYFlipped(cx, cy, nx, ny, 0, tb);
      }
      CoarseYReplaced(cx, cy, nx, ny2, 0, tb, y2);
      Unpack(cx, y2, nx, ny2, 0, tb);
    }
  }

  /** Flipping bit 11 of a packed value flips its vertical name table field. */
  lemma NameTableYFlipped(cx: nat, cy: nat, nx: nat, ny: nat, fy: nat, tb: nat)
    requires cx < 32 && cy < 32 && nx < 2 && ny < 2 && fy < 8 && tb < 2
    ensures FlipNameTableY(Pack(cx, cy, nx, ny, fy, tb)) == Pack(cx, cy, nx, 1 - ny, fy, tb)
  {
    Unpack(cx, cy, nx, ny, fy, tb);
  }

  /** The copy at dot 257 takes coarse X and the horizontal name table from `t` and keeps
      every other field of `v`. */
  lemma HorizontalCopyFields(v: nat, t: nat)
    ensures var r := HorizontalCopy(v, t);
            && r < 0x10000 && CoarseX(r) == CoarseX(t) && NameTableX(r) == NameTableX(t)
            && CoarseY(r) == CoarseY(v) && NameTableY(r) == NameTableY(v)
            && FineY(r) == FineY(v) && TopBit(r) == TopBit(v)
  {
    var cy, ny, fy, tb := CoarseY(v), NameTableY(v), FineY(v), TopBit(v);
    Split(v);
    Split(t);
    Unpack(CoarseX(v), cy, NameTableX(v), ny, fy, tb);
    Euclid(32, cy, CoarseX(v));
    assert HorizontalCopy(v, t) == Pack(CoarseX(t), cy, NameTableX(t), ny, fy, tb);
    Unpack(CoarseX(t), cy, NameTableX(t), ny, fy, tb);
  }

  /** The copy on the pre-render line takes coarse Y, the vertical name table and fine Y
      from `t` and keeps coarse X, the horizontal name table and bit 15 of `v`. */
  lemma VerticalCopyFields(v: nat, t: nat)
    ensures var r := VerticalCopy(v, t);
            && r < 0x10000 && CoarseY(r) == CoarseY(t) && NameTableY(r) == NameTableY(t) && FineY(r) == FineY(t)
            && CoarseX(r) == CoarseX(v) && NameTableX(r) == NameTableX(v) && TopBit(r) == TopBit(v)
  {
    var cx, nx, tb := CoarseX(v), NameTableX(v), TopBit(v);
    var cy, ny, fy := CoarseY(t), NameTableY(t), FineY(t);
    assert v % 0x10000 / 0x8000 == tb by {
      Split(v);
      Unpack(cx, CoarseY(v), nx, NameTableY(v), FineY(v), tb);
    }
    assert t % 0x8000 / 0x800 == ny + 2 * fy && t % 0x400 / 32 == cy by {
      Split(t);
      Unpack(CoarseX(t), cy, NameTableX(t), ny, fy, 0);
      Euclid(32, cy, CoarseX(t));
    }
    assert VerticalCopy(v, t) == Pack(cx, cy, nx, ny, fy, tb);
    Unpack(cx, cy, nx, ny, fy, tb);
  }

  // ---------------------------------------------------------------------------------------
  // The dot counter

  /** A dot's position in the frame: 341 dots per line, 262 lines. */
  function Dot(cycle: nat, scanline: nat): nat
  {
    scanline * 341 + cycle
  }

  /** With `f` at 0 (and nothing sets it to 1) the odd-frame skip never fires: the counter
      steps through all 341 x 262 dots of a frame one at a time and wraps, and `f` stays 0. */
  lemma CounterSteps(cycle: nat, scanline: nat, showBackground: bit)
    requires cycle <= 340 && scanline <= 261
    ensures var (c, l, f) := NextCounters(cycle, scanline, 0, showBackground);
            && c <= 340 && l <= 261 && f == 0
            && Dot(c, l) == (Dot(cycle, scanline) + 1) % (341 * 262)
  {
  }

  // ---------------------------------------------------------------------------------------
  // Tiles and sprites

  /** A horizontally mirrored row is the plain row read backwards. */
  lemma MirroredRow(attribute: nat, low: Option<byte>, high: Option<byte>)
    requires attribute % 4 == 0 && attribute < 16
    ensures var plain := TileRow(attribute, low, high, false);
            TileRow(attribute, low, high, true) == seq(8, k requires 0 <= k < 8 => plain[7 - k])
  {
  }

  /** `Hits(m)` is the start of `Hits(n)` for m <= n. */
  lemma {:induction false} HitsPrefix(oam: seq<byte>, scanline: int, size: nat, m: nat, n: nat)
    requires |oam| == OAM_SIZE && m <= n <= 64
    ensures Hits(oam, scanline, size, m) <= Hits(oam, scanline, size, n)
    decreases n - m
  {
    if m < n {
      HitsPrefix(oam, scanline, size, m, n - 1);
    }
  }

  /** A sprite on the scanline after eight hits makes a ninth: the first eight hits of all
      64 entries are those eight. */
  lemma HitsPastEight(oam: seq<byte>, scanline: int, size: nat, i: nat)
    requires |oam| == OAM_SIZE && i < 64 && OnScanline(oam, i, scanline, size)
    requires |Hits(oam, scanline, size, i)| == 8
    ensures var all := Hits(oam, scanline, size, 64);
            |all| > 8 && all[..8] == Hits(oam, scanline, size, i)
  {
    assert Hits(oam, scanline, size, i + 1) == Hits(oam, scanline, size, i) + [i];
    HitsPrefix(oam, scanline, size, i, 64);
    HitsPrefix(oam, scanline, size, i + 1, 64);
  }

  /** Every sprite below `n` on the scanline is among `Hits(n)`. */
  lemma {:induction false} HitsComplete(oam: seq<byte>, scanline: int, size: nat, n: nat, i: nat)
    requires |oam| == OAM_SIZE && i < n <= 64 && OnScanline(oam, i, scanline, size)
    ensures i in Hits(oam, scanline, size, n)
  {
    if i < n - 1 {
      HitsComplete(oam, scanline, size, n - 1, i);
    }
  }

  /** Sprite evaluation keeps at most eight sprites, all on the scanline and in OAM order;
      none on the scanline is skipped before the last one kept, and fewer than eight are kept
      only when there are no more. The overflow flag rises exactly when there is a ninth. */
  lemma SpriteSelection(s: PpuState)
    requires Good(s)
    ensures var r := EvaluateSprites(s);
            var size := SpriteSize(s.ctrl);
            && r.spriteCount <= 8
            && (forall k :: 0 <= k < r.spriteCount ==>
                  r.sprites[k].index < 64 && OnScanline(s.vram.oam, r.sprites[k].index, s.scanline, size))
            && (forall k, l :: 0 <= k < l < r.spriteCount ==> r.sprites[k].index < r.sprites[l].index)
            && (forall i :: 0 <= i < 64 && OnScanline(s.vram.oam, i, s.scanline, size) ==>
                  (exists k :: 0 <= k < r.spriteCount && r.sprites[k].index == i)
                  || (r.spriteCount == 8 && i > r.sprites[7].index))
            && (r.spriteOverflow == 1 <==> s.spriteOverflow == 1 || |Hits(s.vram.oam, s.scanline, size, 64)| > 8)
  {
    var r := EvaluateSprites(s);
    SlotsFilled(s);
    SlotsCover(s.vram.oam, s.scanline, SpriteSize(s.ctrl), r.spriteCount, r.sprites);
  }

  /** Slots that hold the first hits, up to eight, name every sprite on the scanline or are
      full with sprites before it. */
  lemma SlotsCover(oam: seq<byte>, scanline: int, size: nat, count: nat, sprites: seq<Sprite>)
    requires |oam| == OAM_SIZE && |sprites| == 8
    requires var hits := Hits(oam, scanline, size, 64);
             && count == (if |hits| > 8 then 8 else |hits|)
             && forall k :: 0 <= k < count ==> sprites[k].index == hits[k]
    ensures count <= 8
    ensures forall k :: 0 <= k < count ==> sprites[k].index < 64 && OnScanline(oam, sprites[k].index, scanline, size)
    ensures forall k, l :: 0 <= k < l < count ==> sprites[k].index < sprites[l].index
    ensures forall i :: 0 <= i < 64 && OnScanline(oam, i, scanline, size) ==>
              (exists k :: 0 <= k < count && sprites[k].index == i)
              || (count == 8 && i > sprites[7].index)
  {
    var hits := Hits(oam, scanline, size, 64);
    forall i | 0 <= i < 64 && OnScanline(oam, i, scanline, size)
      ensures (exists k :: 0 <= k < count && sprites[k].index == i)
              || (count == 8 && i > sprites[7].index)
    {
      HitsComplete(oam, scanline, size, 64, i);
      var k :| 0 <= k < |hits| && hits[k] == i;
      if k < count {
        assert sprites[k].index == i;
      } else {
        assert hits[7] < hits[k];
      }
    }
  }

  /** Sprite evaluation fills the slots with the first hits, up to eight, in order. */
  lemma SlotsFilled(s: PpuState)
    requires Good(s)
    ensures var r := EvaluateSprites(s);
            var hits := Hits(s.vram.oam, s.scanline, SpriteSize(s.ctrl), 64);
            && r.spriteCount == (if |hits| > 8 then 8 else |hits|)
            && r.spriteOverflow == (if |hits| > 8 then 1 else s.spriteOverflow)
            && forall k :: 0 <= k < r.spriteCount ==> r.sprites[k].index == hits[k]
  {
  }

  /** What sprite evaluation stores, slot by slot. */
  lemma Evaluated(s: PpuState)
    requires Good(s)
    ensures var r := EvaluateSprites(s);
            var hits := Hits(s.vram.oam, s.scanline, SpriteSize(s.ctrl), 64);
            && r.spriteCount == (if |hits| > 8 then 8 else |hits|)
            && r.spriteOverflow == (if |hits| > 8 then 1 else s.spriteOverflow)
            && |r.sprites| == 8
            && (forall k :: 0 <= k < 8 ==>
                  r.sprites[k] == if k < r.spriteCount then StoredSprite(s.vram, s.ctrl, s.scanline, hits[k]) else s.sprites[k])
            && (r.spriteCount == 0 ==> r.lowTileByte == s.lowTileByte && r.highTileByte == s.highTileByte)
            && (r.spriteCount > 0 ==> (r.lowTileByte, r.highTileByte) == SpriteBytes(s.vram, s.ctrl, s.scanline, hits[r.spriteCount - 1]))
  {
  }

  /** The sprite pixel search: a non-zero result names the first slot from `i` whose pixel at
      the column is opaque, with bit 4 added; zero means every slot is transparent there. */
  lemma {:induction false} SpritePixelFirstOpaque(sprites: seq<Sprite>, count: nat, column: int, i: nat)
    requires count <= |sprites|
    ensures var (index, color) := SpritePixelFrom(sprites, count, column, i);
            && (color != 0 ==>
                  && color == SpriteColorAt(sprites[index], column) + 16
                  && SpriteColorAt(sprites[index], column) % 4 != 0
                  && forall j :: i <= j < index ==> SpriteColorAt(sprites[j], column) % 4 == 0)
            && (color == 0 ==> forall j :: i <= j < count ==> SpriteColorAt(sprites[j], column) % 4 == 0)
    decreases count - i
  {
    if i < count && SpriteColorAt(sprites[i], column) % 4 == 0 {
      SpritePixelFirstOpaque(sprites, count, column, i + 1);
    }
  }

  /** The priority decision: two transparent pixels give colour 0 (background), a single
      opaque pixel wins, and when both are opaque the sprite's priority bit decides and the
      sprite-zero hit rises for sprite 0 left of column 255. */
  lemma PixelPriority(column: int, background: nat, sprite: Sprite, spriteColor: nat)
    ensures var p := Priority(column, background, sprite, spriteColor);
            var bg := background % 4 != 0;
            var sp := spriteColor % 4 != 0;
            && (!bg && !sp ==> p == Pixel(0, true, false))
            && (!bg && sp ==> p == Pixel(spriteColor, false, false))
            && (bg && !sp ==> p == Pixel(background, true, false))
            && (bg && sp ==> p.color == (if sprite.priority == 0 then spriteColor else background)
                             && p.isBackground == (sprite.priority != 0))
            && (p.zeroHit <==> bg && sp && sprite.index == 0 && column < 255)
  {
  }

  // ---------------------------------------------------------------------------------------
  // The tick

  /** Each tick keeps the invariant: counters in range, `f` at 0, eight sprite slots. */
  lemma TickKeepsGood(s: PpuState)
    requires Good(s)
    ensures Good(Tick(s).0)
  {
    var s1 := s.(cycleType := CycleTypeOf(s.cycle), scanlineType := ScanLineTypeOf(s.scanline));
    RunLineKeepsGood(s1);
    var (s2, e) := RunLine(s1);
    if e.Ok? {
      CounterSteps(s2.cycle, s2.scanline, s2.mask.showBackground);
    }
  }

  /** A line's work keeps the invariant and the counters; when it succeeds it leaves an
      interrupt behind only on dot 1 of line 241. */
  lemma RunLineKeepsGood(s: PpuState)
    requires Good(s) && s.cycleType == CycleTypeOf(s.cycle) && s.scanlineType == ScanLineTypeOf(s.scanline)
    ensures var (r, e) := RunLine(s);
            && Good(r) && r.cycle == s.cycle && r.scanline == s.scanline
            && (e.Ok? && r.interrupt.Some? ==> s.scanline == 241 && s.cycle == 1)
  {
    if s.scanlineType == VBlankLine {
      var (s', i) := DoVBlankLine(s);
      assert i.Some? ==> s.cycle == 1;
      assert RunLine(s) == (s'.(interrupt := i), Ok(()));
    } else if Rendering(s) && (s.scanlineType == PreLine || s.scanlineType == VisibleLine) {
      RenderLineKeepsGood(s);
    }
  }

  /** The pre-render and visible lines' work, while rendering, keeps the invariant and the
      counters and leaves no interrupt behind. */
  lemma RenderLineKeepsGood(s: PpuState)
    requires Good(s) && Rendering(s) && (s.scanlineType == PreLine || s.scanlineType == VisibleLine)
    ensures var (r, e) := RunLine(s);
            && Good(r) && r.cycle == s.cycle && r.scanline == s.scanline
            && (e.Ok? ==> r.interrupt.None?)
  {
    var (s', r) := if s.scanlineType == PreLine then DoPreline(s) else DoVisibleLine(s);
    assert RunLine(s) == if r.Err? then (s', Err(r.fault)) else (s'.(interrupt := None), Ok(()));
  }

  /** The NMI: a tick raises it exactly on dot 1 of line 241 with NMI output enabled, and
      the PPU never raises an IRQ. */
  lemma VBlankNmi(s: PpuState)
    requires Good(s)
    ensures Tick(s).1 == Ok(Some(Nmi)) <==> s.scanline == 241 && s.cycle == 1 && s.nmiOutput == 1
    ensures Tick(s).1 != Ok(Some(Irq))
  {
  }

  /** A tick can only fail in four-screen mode, where the upper two name tables are missing. */
  lemma TickFailsOnlyInFourScreen(s: PpuState)
    requires Good(s)
    ensures Tick(s).1.Err? ==> s.vram.mapper.mirrorType == QUADRUPLE_SCREEN
  {
  }

  // ---------------------------------------------------------------------------------------
  // Reset and frame acknowledgement

  /** `reset` keeps the invariant, leaves every VRAM buffer its size with every byte zero and
      the mapper as it was, starts over at dot 0 of the pre-render line, and clears every
      PPUSTATUS bit: a status read right after it returns 0. */
  lemma ResetClears(s: PpuState)
    requires Good(s)
    ensures var r := Reset(s);
            && Good(r) && r.cycle == 0 && r.scanline == 261 && r.vram.mapper == s.vram.mapper
            && |r.vram.names| == |s.vram.names| && |r.vram.oam| == |s.vram.oam|
            && (forall k :: 0 <= k < |r.vram.names| ==> r.vram.names[k] == 0)
            && (forall k :: 0 <= k < |r.vram.oam| ==> r.vram.oam[k] == 0)
            && ReadRegister(r, 0x2002).1 == Ok(Some(0))
  {
  }

  /** `acknowledgeFrame` keeps the invariant and consumes the frame; with sprites shown it
      clears the sprite overflow and sprite-zero bits of PPUSTATUS and nothing else, and a
      second acknowledgement changes nothing more. */
  lemma AcknowledgeClearsFlags(s: PpuState)
    requires Good(s)
    ensures var r := AcknowledgeFrame(s);
            && Good(r) && !r.frameReady
            && (s.mask.showSprites == 1 ==> StatusByte(r) == StatusByte(s) % 32 + StatusByte(s) / 128 * 128)
            && (s.mask.showSprites != 1 ==> StatusByte(r) == StatusByte(s))
            && AcknowledgeFrame(r) == r
  {
  }
}
