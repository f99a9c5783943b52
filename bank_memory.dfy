/** A 1 KiB-page pointer table over a byte buffer: the banked view of a cartridge's PRG or CHR
    memory (src/mappers/BankMemory.ts). */
module Banking {
  import opened Wrappers
  import opened Bits

  const PAGE_SIZE: nat := 0x400

  /** The pointer table after `switchBank(fromAddress, toAddress, value)`. */
  function SwitchedPointers(ptrs: seq<byte>, fromAddress: nat, toAddress: nat, value: int): (r: seq<byte>)
    ensures |r| == |ptrs|
  {
    SwitchedPages(ptrs, fromAddress / PAGE_SIZE, toAddress / PAGE_SIZE, value)
  }

  /** The pointer table after the loop of `switchBank(fromAddress, toAddress, value)`, once
      `value * (p2 - p1)`, the first page of the bank, is known as `first`. A caller that passes
      a fractional `value` still lands on a whole page here, since only the product is stored. */
  function SwitchedPointersFrom(ptrs: seq<byte>, fromAddress: nat, toAddress: nat, first: int): (r: seq<byte>)
    ensures |r| == |ptrs|
  {
    SwitchedPagesFrom(ptrs, fromAddress / PAGE_SIZE, toAddress / PAGE_SIZE, first)
  }

  /** The pointer table after switching pages p1 (inclusive) to p2 (exclusive) to bank `value`:
      the bank's first page is `value * (p2 - p1)`. */
  function SwitchedPages(ptrs: seq<byte>, p1: nat, p2: nat, value: int): (r: seq<byte>)
    ensures |r| == |ptrs|
  {
    SwitchedPagesFrom(ptrs, p1, p2, value * (p2 - p1))
  }

  /** Page i of [p1, p2) points at `first + (i - p1)`, stored in a Uint8Array; pages past the
      end of the table are not stored. */
  function SwitchedPagesFrom(ptrs: seq<byte>, p1: nat, p2: nat, first: int): (r: seq<byte>)
    ensures |r| == |ptrs|
  {
    seq(|ptrs|, i requires 0 <= i < |ptrs| => SwitchedPointer(ptrs[i], p1, p2, first, i))
  }

  function SwitchedPointer(current: byte, p1: nat, p2: nat, first: int, i: nat): byte
  {
    if p1 <= i < p2 then ToUint8(first + (i - p1)) else current
  }

  /** The byte a read at `address` resolves to, or None where JavaScript yields `undefined`
      (the page has no pointer, or the pointed-at byte lies past the end of the buffer). */
  function ReadAt(data: seq<byte>, ptrs: seq<byte>, address: nat): (r: Option<byte>)
  {
    var p := address / PAGE_SIZE;
    if p < |ptrs| && ptrs[p] * PAGE_SIZE + address % PAGE_SIZE < |data|
    then Some(data[ptrs[p] * PAGE_SIZE + address % PAGE_SIZE])
    else None
  }

  /** The buffer after a write at `address`; an index outside the buffer drops the write. */
  function WriteAt(data: seq<byte>, ptrs: seq<byte>, address: nat, value: byte): (r: seq<byte>)
    ensures |r| == |data|
  {
    var p := address / PAGE_SIZE;
    if p < |ptrs| && ptrs[p] * PAGE_SIZE + address % PAGE_SIZE < |data|
    then data[ptrs[p] * PAGE_SIZE + address % PAGE_SIZE := value]
    else data
  }

  /** The identity table the constructor builds: page i points at bank page i (mod 256). */
  function IdentityPointers(n: nat): (r: seq<byte>)
    ensures |r| == n
  {
    seq(n, i requires 0 <= i < n => ToUint8(i))
  }

  class BankMemory {
    const data: array<byte>
    const pointers: array<byte>
    const windowSize: nat
    const bankNbr: nat
    var fixed: bool
    var swapMode: int

    ghost const Repr: set<object>

    ghost predicate Valid()
      reads this
    {
      Repr == {this, data, pointers} && data != pointers
    }

    /** The buffer as a sequence. */
    ghost function Data(): seq<byte>
      reads data
    {
      data[..]
    }

    /** The pointer table as a sequence. */
    ghost function Pointers(): seq<byte>
      reads pointers
    {
      pointers[..]
    }

    constructor(data: array<byte>, windowSize: nat, fixed: bool)
      ensures Valid() && fresh(pointers)
      ensures this.data == data && this.windowSize == windowSize && this.fixed == fixed
      ensures bankNbr == data.Length / PAGE_SIZE
      ensures pointers[..] == IdentityPointers(windowSize / PAGE_SIZE)
      ensures swapMode == 0
    {
      this.data := data;
      this.windowSize := windowSize;
      this.fixed := fixed;
      this.bankNbr := data.Length / PAGE_SIZE;
      var ptrs := new byte[windowSize / PAGE_SIZE];
      this.pointers := ptrs;
      this.swapMode := 0;
      this.Repr := {this, data, ptrs};
      new;
      var i := 0;
      while i < ptrs.Length
        invariant 0 <= i <= ptrs.Length
        invariant forall k :: 0 <= k < i ==> ptrs[k] == ToUint8(k)
        invariant this.fixed == fixed && swapMode == 0
      {
        ptrs[i] := ToUint8(i);
        i := i + 1;
      }
    }

    /** Points the pages of [fromAddress, toAddress) at consecutive pages of bank `value`, where
        a bank is as large as the range. */
    method SwitchBank(fromAddress: nat, toAddress: nat, value: int)
      requires Valid()
      modifies pointers
      ensures pointers[..] == SwitchedPointers(old(pointers[..]), fromAddress, toAddress, value)
    {
      var p1 := fromAddress / PAGE_SIZE;
      var p2 := toAddress / PAGE_SIZE;
      SwitchBankFrom(fromAddress, toAddress, value * (p2 - p1));
    }

    /** The loop of `switchBank` once `value * (p2 - p1)` is known: the pages of
        [fromAddress, toAddress) point at consecutive pages from `first` on. */
    method SwitchBankFrom(fromAddress: nat, toAddress: nat, first: int)
      requires Valid()
      modifies pointers
      ensures pointers[..] == SwitchedPointersFrom(old(pointers[..]), fromAddress, toAddress, first)
    {
      var p1 := fromAddress / PAGE_SIZE;
      var p2 := toAddress / PAGE_SIZE;
      var i := p1;
      ghost var before := pointers[..];
      while i < p2
        invariant p1 <= i || p2 <= p1
        invariant forall k :: 0 <= k < pointers.Length ==>
          pointers[k] == if p1 <= k < i && k < p2 then ToUint8(first + (k - p1)) else before[k]
      {
        if i < pointers.Length {
          pointers[i] := ToUint8(first + (i - p1));
        }
        i := i + 1;
      }
    }

    method Write8(address: nat, value: byte)
      requires Valid()
      modifies data
      ensures data[..] == WriteAt(old(data[..]), pointers[..], address, value)
    {
      var p := address / PAGE_SIZE;
      var o := address % PAGE_SIZE;
      if p < pointers.Length && pointers[p] * PAGE_SIZE + o < data.Length {
        data[pointers[p] * PAGE_SIZE + o] := value;
      }
    }

    method Read8(address: nat) returns (r: Option<byte>)
      requires Valid()
      ensures r == ReadAt(data[..], pointers[..], address)
    {
      var p := address / PAGE_SIZE;
      var o := address % PAGE_SIZE;
      if p < pointers.Length && pointers[p] * PAGE_SIZE + o < data.Length {
        r := Some(data[pointers[p] * PAGE_SIZE + o]);
      } else {
        r := None;
      }
    }
  }

  /** Switching leaves every page outside [p1, p2) alone, and points the pages inside at
      consecutive pages of one bank. */
  lemma SwitchOnlyTouchesRange(ptrs: seq<byte>, p1: nat, p2: nat, value: int)
    ensures forall i :: 0 <= i < |ptrs| && !(p1 <= i < p2) ==> SwitchedPages(ptrs, p1, p2, value)[i] == ptrs[i]
    ensures forall i :: 0 <= i < |ptrs| - 1 && p1 <= i < p2 - 1 ==>
      SwitchedPages(ptrs, p1, p2, value)[i + 1] == ToUint8(SwitchedPages(ptrs, p1, p2, value)[i] as int + 1)
  {
    var r := SwitchedPages(ptrs, p1, p2, value);
    forall i | 0 <= i < |ptrs| - 1 && p1 <= i < p2 - 1
      ensures r[i + 1] == ToUint8(r[i] as int + 1)
    {
      var x := value * (p2 - p1) + (i - p1);
      assert r[i] == ToUint8(x) && r[i + 1] == ToUint8(x + 1);
      ModSucc(x);
    }
  }

  lemma ModSucc(x: int)
    ensures ToUint8(ToUint8(x) as int + 1) == ToUint8(x + 1)
  {
  }

  /** Switching the same range to the same bank twice gives the table of switching once. */
  lemma SwitchIdempotent(ptrs: seq<byte>, p1: nat, p2: nat, value: int)
    ensures SwitchedPages(SwitchedPages(ptrs, p1, p2, value), p1, p2, value)
         == SwitchedPages(ptrs, p1, p2, value)
  {
  }

  /** A read after a write at the same address returns the written byte, provided the address
      resolves inside the buffer; if it does not, the write is dropped and the read is undefined. */
  lemma ReadAfterWrite(data: seq<byte>, ptrs: seq<byte>, address: nat, value: byte)
    ensures ReadAt(WriteAt(data, ptrs, address, value), ptrs, address) ==
      if ReadAt(data, ptrs, address).Some? then Some(value) else None
  {
  }

  /** A write leaves every other resolved byte alone. */
  lemma WriteKeepsOthers(data: seq<byte>, ptrs: seq<byte>, address: nat, other: nat, value: byte)
    requires ReadAt(data, ptrs, address).Some? && ReadAt(data, ptrs, other).Some?
    requires ptrs[address / PAGE_SIZE] * PAGE_SIZE + address % PAGE_SIZE
          != ptrs[other / PAGE_SIZE] * PAGE_SIZE + other % PAGE_SIZE
    ensures ReadAt(WriteAt(data, ptrs, address, value), ptrs, other) == ReadAt(data, ptrs, other)
  {
  }

  /** After switching [p1, p2) to the pages from `first` on (for bank n, `first` is
      `n * (p2 - p1)`), an address in the window reads byte `(first + page - p1) mod 256` pages
      into the buffer. */
  lemma ReadAfterSwitch(data: seq<byte>, ptrs: seq<byte>, p1: nat, p2: nat, first: int, address: nat)
    requires p1 * PAGE_SIZE <= address < p2 * PAGE_SIZE && address / PAGE_SIZE < |ptrs|
    ensures ReadAt(data, SwitchedPagesFrom(ptrs, p1, p2, first), address) ==
      var base := ToUint8(first + address / PAGE_SIZE - p1) * PAGE_SIZE + address % PAGE_SIZE;
      if base < |data| then Some(data[base]) else None
  {
    assert p1 <= address / PAGE_SIZE < p2;
  }
}
