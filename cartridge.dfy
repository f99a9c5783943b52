/** The iNES cartridge file: header fields and the PRG/CHR payloads (src/Rom.ts). */
module Cartridge {
  import opened Bits
  import opened Mirroring

  const HEADER_SIZE: nat := 16
  const PRG_BANK_SIZE: nat := 16384
  const CHR_BANK_SIZE: nat := 8192

  /** What the Rom constructor extracts from a file, before it picks a mapper. */
  datatype RomImage = RomImage(
    nbrPrgBanks: byte,
    nbrChrBanks: byte,
    mapperType: nat,
    mirrorType: MirrorType,
    region: bit,
    prg: seq<byte>,
    chr: seq<byte>)

  function Min(a: int, b: int): int { if a <= b then a else b }

  /** `Uint8Array.subarray(begin, end)`: both ends are clamped to the buffer. */
  function Subarray(buffer: seq<byte>, begin: nat, end: nat): (r: seq<byte>)
    ensures |r| == if Min(end, |buffer|) <= Min(begin, |buffer|) then 0 else Min(end, |buffer|) - Min(begin, |buffer|)
    ensures forall k :: 0 <= k < |r| ==> r[k] == buffer[begin + k]
  {
    var b := Min(begin, |buffer|);
    var e := Min(end, |buffer|);
    if e <= b then [] else buffer[b..e]
  }

  /** Header byte k; in a file shorter than the header the byte is `undefined`, which every
      header expression (shifts, masks and the bank-count products) treats as 0. */
  function HeaderByte(buffer: seq<byte>, k: nat): byte
  {
    if k < |buffer| then buffer[k] else 0
  }

  /** The mapper number: high nibble of byte 6, then high nibble of byte 7 above it. */
  function MapperType(h6: byte, h7: byte): (r: nat)
    ensures r < 256
  {
    h6 / 16 + (h7 / 16) * 16
  }

  /** Bit 0 of byte 6 (vertical arrangement), with bit 3 (four-screen) as bit 1. */
  function MirrorTypeOf(h6: byte): (r: MirrorType)
    ensures r <= 3
  {
    h6 % 2 + ((h6 / 8) % 2) * 2
  }

  function Parse(buffer: seq<byte>): (r: RomImage)
    ensures |r.prg| <= HeaderByte(buffer, 4) * PRG_BANK_SIZE
    ensures r.nbrChrBanks == 0 ==> r.chr == seq(CHR_BANK_SIZE, _ => 0)
  {
    var nbrPrg := HeaderByte(buffer, 4);
    var nbrChr := HeaderByte(buffer, 5);
    var prgLength := nbrPrg * PRG_BANK_SIZE;
    var chrLength := nbrChr * CHR_BANK_SIZE;
    RomImage(
      nbrPrg,
      nbrChr,
      MapperType(HeaderByte(buffer, 6), HeaderByte(buffer, 7)),
      MirrorTypeOf(HeaderByte(buffer, 6)),
      HeaderByte(buffer, 9) % 2,
      Subarray(buffer, HEADER_SIZE, HEADER_SIZE + prgLength),
      if chrLength > 0 then Subarray(buffer, HEADER_SIZE + prgLength, HEADER_SIZE + prgLength + chrLength)
      else seq(CHR_BANK_SIZE, _ => 0))
  }

  /** A header with the given fields (bytes 0-3 and 10-15 are left zero). */
  function EncodeHeader(nbrPrg: byte, nbrChr: byte, mapperType: byte, mirrorType: MirrorType, region: bit): (h: seq<byte>)
    requires mirrorType <= 3
    ensures |h| == HEADER_SIZE
  {
    [0, 0, 0, 0, nbrPrg, nbrChr,
     (mapperType % 16) * 16 + (mirrorType / 2) * 8 + mirrorType % 2,
     (mapperType / 16) * 16,
     0, region, 0, 0, 0, 0, 0, 0]
  }

  /** Parsing a well-formed file recovers every header field and both payloads. */
  lemma ParseEncoded(nbrPrg: byte, nbrChr: byte, mapperType: byte, mirrorType: MirrorType, region: bit,
                     prg: seq<byte>, chr: seq<byte>)
    requires mirrorType <= 3
    requires |prg| == nbrPrg * PRG_BANK_SIZE && |chr| == nbrChr * CHR_BANK_SIZE
    ensures var r := Parse(EncodeHeader(nbrPrg, nbrChr, mapperType, mirrorType, region) + prg + chr);
      r.nbrPrgBanks == nbrPrg && r.nbrChrBanks == nbrChr && r.mapperType == mapperType
      && r.mirrorType == mirrorType && r.region == region
      && r.prg == prg && (nbrChr > 0 ==> r.chr == chr)
  {
    var buffer := EncodeHeader(nbrPrg, nbrChr, mapperType, mirrorType, region) + prg + chr;
    var r := Parse(buffer);
    assert HeaderByte(buffer, 6) == (mapperType % 16) * 16 + (mirrorType / 2) * 8 + mirrorType % 2;
    assert r.prg == prg by {
      assert buffer[HEADER_SIZE..HEADER_SIZE + |prg|] == prg;
    }
    if nbrChr > 0 {
      assert buffer[HEADER_SIZE + |prg|..HEADER_SIZE + |prg| + |chr|] == chr;
    }
  }

  /** The PRG payload is exactly the bytes after the header when the file is long enough, and
      is cut short (never padded) otherwise. */
  lemma PrgSlice(buffer: seq<byte>)
    ensures |buffer| >= HEADER_SIZE + HeaderByte(buffer, 4) * PRG_BANK_SIZE ==>
      Parse(buffer).prg == buffer[HEADER_SIZE..HEADER_SIZE + HeaderByte(buffer, 4) * PRG_BANK_SIZE]
    ensures Parse(buffer).prg <= buffer[Min(HEADER_SIZE, |buffer|)..]
  {
  }

  /** The CHR payload follows the PRG payload. */
  lemma ChrSlice(buffer: seq<byte>)
    requires HeaderByte(buffer, 5) > 0
    ensures var start := HEADER_SIZE + HeaderByte(buffer, 4) * PRG_BANK_SIZE;
      |buffer| >= start + HeaderByte(buffer, 5) * CHR_BANK_SIZE ==>
      Parse(buffer).chr == buffer[start..start + HeaderByte(buffer, 5) * CHR_BANK_SIZE]
  {
  }
}
