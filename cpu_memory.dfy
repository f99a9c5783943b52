/** The CPU's 2 KiB of work RAM, split into zero page, stack page and the rest, and mirrored
    every 0x800 bytes (src/CpuMemory.ts). */
module CpuRam {
  import opened Wrappers
  import opened Bits

  const MIRROR_SIZE: nat := 0x800
  const ZP_SIZE: nat := 256
  const STACK_SIZE: nat := 256
  const RAM_SIZE: nat := 1536

  datatype Region = ZeroPage | StackPage | WorkRam

  /** The three arrays as values. */
  datatype RamState = RamState(zp: seq<byte>, stack: seq<byte>, ram: seq<byte>)

  predicate WellSized(s: RamState)
  {
    |s.zp| == ZP_SIZE && |s.stack| == STACK_SIZE && |s.ram| == RAM_SIZE
  }

  /** Where an address lands: its remainder mod 0x800 (JavaScript's, so negative for a negative
      address, which indexes no array) picks the region and the index inside it. */
  function Locate(address: int): (r: Option<(Region, nat)>)
    ensures address >= 0 ==> r.Some?
    ensures r.Some? ==> r.value.1 < (if r.value.0 == WorkRam then RAM_SIZE else 256)
  {
    var a := JsRem(address, MIRROR_SIZE);
    if a < 0 then None
    else if a < 0x100 then Some((ZeroPage, a))
    else if a < 0x200 then Some((StackPage, a - 0x100))
    else Some((WorkRam, a - 0x200))
  }

  function ReadRam(s: RamState, address: int): (r: Option<byte>)
    requires WellSized(s)
  {
    match Locate(address)
    case None => None
    case Some((region, i)) =>
      match region
      case ZeroPage => Some(s.zp[i])
      case StackPage => Some(s.stack[i])
      case WorkRam => Some(s.ram[i])
  }

  function WriteRam(s: RamState, address: int, value: byte): (r: RamState)
    requires WellSized(s)
    ensures WellSized(r)
  {
    match Locate(address)
    case None => s
    case Some((region, i)) =>
      match region
      case ZeroPage => s.(zp := s.zp[i := value])
      case StackPage => s.(stack := s.stack[i := value])
      case WorkRam => s.(ram := s.ram[i := value])
  }

  class CpuMemory {
    const zp: array<byte>
    const stack: array<byte>
    const ram: array<byte>

    ghost const Repr: set<object>

    ghost predicate Valid()
      reads this
    {
      && Repr == {this, zp, stack, ram}
      && zp != stack && zp != ram && stack != ram
      && zp.Length == ZP_SIZE && stack.Length == STACK_SIZE && ram.Length == RAM_SIZE
    }

    ghost function State(): (s: RamState)
      requires Valid()
      reads Repr
      ensures WellSized(s)
    {
      RamState(zp[..], stack[..], ram[..])
    }

    /** All three arrays start filled with 0xff. */
    constructor()
      ensures Valid() && fresh(Repr)
      ensures State() == RamState(seq(ZP_SIZE, _ => 0xff), seq(STACK_SIZE, _ => 0xff), seq(RAM_SIZE, _ => 0xff))
    {
      var z := new byte[ZP_SIZE](_ => 0xff);
      var st := new byte[STACK_SIZE](_ => 0xff);
      var r := new byte[RAM_SIZE](_ => 0xff);
      zp, stack, ram := z, st, r;
      Repr := {this, z, st, r};
    }

    function Read8(address: int): (r: Option<byte>)
      requires Valid()
      reads Repr
      ensures r == ReadRam(State(), address)
    {
      var a := JsRem(address, MIRROR_SIZE);
      if a < 0 then None
      else if a < 0x100 then Some(zp[a])
      else if a < 0x200 then Some(stack[a - 0x100])
      else Some(ram[a - 0x200])
    }

    method Write8(address: int, value: byte)
      requires Valid()
      modifies zp, stack, ram
      ensures Valid() && State() == WriteRam(old(State()), address, value)
    {
      var a := JsRem(address, MIRROR_SIZE);
      if a < 0 {
      } else if a < 0x100 {
        zp[a] := value;
      } else if a < 0x200 {
        stack[a - 0x100] := value;
      } else {
        ram[a - 0x200] := value;
      }
    }

    /** A snapshot of the three arrays. */
    method Save() returns (zpData: seq<byte>, stackData: seq<byte>, ramData: seq<byte>)
      requires Valid()
      ensures RamState(zpData, stackData, ramData) == State()
    {
      zpData, stackData, ramData := zp[..], stack[..], ram[..];
    }

    /** Replaces the contents of the three arrays with copies of the given ones. */
    method Load(zpData: seq<byte>, stackData: seq<byte>, ramData: seq<byte>)
      requires Valid()
      requires |zpData| == ZP_SIZE && |stackData| == STACK_SIZE && |ramData| == RAM_SIZE
      modifies zp, stack, ram
      ensures Valid() && State() == RamState(zpData, stackData, ramData)
    {
      forall i | 0 <= i < ZP_SIZE { zp[i] := zpData[i]; }
      forall i | 0 <= i < STACK_SIZE { stack[i] := stackData[i]; }
      forall i | 0 <= i < RAM_SIZE { ram[i] := ramData[i]; }
    }
  }

  /** Addresses that differ by a multiple of 0x800 are the same byte. */
  lemma MirrorAlias(address: nat, k: nat)
    ensures Locate(address + MIRROR_SIZE * k) == Locate(address)
  {
  }

  /** The region split: zero page, then stack page, then the rest. */
  lemma RegionSplit(address: nat)
    requires address < MIRROR_SIZE
    ensures Locate(address) == Some(
      if address < 0x100 then (ZeroPage, address)
      else if address < 0x200 then (StackPage, address - 0x100)
      else (WorkRam, address - 0x200))
  {
  }

  /** A write is read back through every mirror of its address. */
  lemma ReadBackThroughMirrors(s: RamState, address: nat, k: nat, value: byte)
    requires WellSized(s)
    ensures ReadRam(WriteRam(s, address, value), address + MIRROR_SIZE * k) == Some(value)
  {
    MirrorAlias(address, k);
  }

  /** A write changes exactly one byte of exactly one array: every address that is not a mirror
      of it reads as before. */
  lemma WriteTouchesOneByte(s: RamState, address: nat, other: nat, value: byte)
    requires WellSized(s) && address % MIRROR_SIZE != other % MIRROR_SIZE
    ensures ReadRam(WriteRam(s, address, value), other) == ReadRam(s, other)
  {
  }

  /** A negative address (possible through the relative addressing mode) has a negative
      remainder, so it reads `undefined` and writes nothing, unless it is a multiple of 0x800,
      whose remainder -0 indexes byte 0. */
  lemma NegativeAddressesMiss(s: RamState, address: int, value: byte)
    requires WellSized(s) && address < 0 && address % MIRROR_SIZE != 0
    ensures ReadRam(s, address) == None && WriteRam(s, address, value) == s
  {
  }
}
