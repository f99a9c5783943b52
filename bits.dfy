/** JavaScript integer operations on the values the emulator handles, written as arithmetic.
    A right shift by k is floor division by 2^k (Dafny's `/` for a positive divisor), a mask
    with 2^k - 1 is `% 2^k`, and a left shift is multiplication. The bitwise operators on two
    variable operands are defined bit by bit below. */
module Bits {

  type byte = x: int | 0 <= x < 256
  type bit = x: int | 0 <= x < 2
  type u16 = x: int | 0 <= x < 0x10000

  /** The value a JavaScript Uint8Array stores when assigned the integer x: x modulo 256. */
  function ToUint8(x: int): (r: byte)
    ensures (x - r) % 256 == 0
  {
    x % 256
  }

  /** JavaScript `a % n` for a positive n: the remainder takes the sign of a. */
  function JsRem(a: int, n: nat): (r: int)
    requires n > 0
    ensures a >= 0 ==> r == a % n
    ensures -(n as int) < r < n && (r < 0 ==> a < 0)
  {
    if a >= 0 then a % n else -((-a) % n)
  }

  /** 2^k */
  function Pow2(k: nat): (r: nat)
    ensures r >= 1
  {
    if k == 0 then 1 else 2 * Pow2(k - 1)
  }

  /** Bit k of a non-negative integer, as `(x >> k) & 1`. */
  function Bit(x: nat, k: nat): (r: bit)
  {
    if k == 0 then x % 2 else Bit(x / 2, k - 1)
  }

  /** JavaScript `&` on non-negative operands. */
  function And(a: nat, b: nat): (r: nat)
    decreases a
  {
    if a == 0 || b == 0 then 0
    else 2 * And(a / 2, b / 2) + (if a % 2 == 1 && b % 2 == 1 then 1 else 0)
  }

  /** JavaScript `|` on non-negative operands. */
  function Or(a: nat, b: nat): (r: nat)
    decreases a + b
  {
    if a == 0 then b
    else if b == 0 then a
    else 2 * Or(a / 2, b / 2) + (if a % 2 == 1 || b % 2 == 1 then 1 else 0)
  }

  /** JavaScript `^` on non-negative operands. */
  function Xor(a: nat, b: nat): (r: nat)
    decreases a + b
  {
    if a == 0 then b
    else if b == 0 then a
    else 2 * Xor(a / 2, b / 2) + (a % 2 + b % 2) % 2
  }

  /** Bit 7 of any JavaScript integer in 32-bit range, as `(x & 0x80) !== 0` on its two's
      complement: floor division makes this right for negative x as well. */
  function Bit7(x: int): (r: bit)
  {
    (x / 128) % 2
  }

  lemma {:induction false} BitOfZero(k: nat)
    ensures Bit(0, k) == 0
  {
    if k > 0 {
      BitOfZero(k - 1);
    }
  }

  /** Bit k of x is `(x / 2^k) % 2`. */
  lemma {:induction false} BitIsDivision(x: nat, k: nat)
    ensures Bit(x, k) == (x / Pow2(k)) % 2
  {
    if k > 0 {
      BitIsDivision(x / 2, k - 1);
      DivDiv(x, Pow2(k - 1));
    }
  }

  lemma DivDiv(x: nat, p: nat)
    requires p >= 1
    ensures x / 2 / p == x / (2 * p)
  {
    var q, r := x / (2 * p), x % (2 * p);
    assert x == (2 * p) * q + r;
    var h := p * q + r / 2;
    assert x == 2 * h + r % 2;
    assert x / 2 == h;
    assert 0 <= r / 2 < p;
    assert h / p == q by { DivOfMultiple(p, q, r / 2); }
  }

  lemma DivOfMultiple(p: nat, q: nat, s: nat)
    requires 0 <= s < p
    ensures (p * q + s) / p == q
  {
    var d, m := (p * q + s) / p, (p * q + s) % p;
    assert p * d + m == p * q + s;
    if d < q {
      assert p * (d + 1) == p * d + p;
      MulMono(p, d + 1, q);
    } else if d > q {
      assert p * (q + 1) == p * q + p;
      MulMono(p, q + 1, d);
    }
  }

  lemma MulMono(p: nat, a: nat, b: nat)
    requires a <= b
    ensures p * a <= p * b
  {
    assert p * b == p * a + p * (b - a);
  }

  lemma {:induction false} AndBit(a: nat, b: nat, k: nat)
    ensures Bit(And(a, b), k) == Bit(a, k) * Bit(b, k)
    decreases a
  {
    if a == 0 || b == 0 {
      BitOfZero(k);
    } else if k > 0 {
      AndBit(a / 2, b / 2, k - 1);
    }
  }

  lemma {:induction false} XorBit(a: nat, b: nat, k: nat)
    ensures Bit(Xor(a, b), k) == (Bit(a, k) + Bit(b, k)) % 2
    decreases a + b
  {
    if a == 0 {
      BitOfZero(k);
    } else if b == 0 {
      BitOfZero(k);
    } else {
      LowBit(Xor(a / 2, b / 2), (a % 2 + b % 2) % 2);
      if k > 0 {
        XorBit(a / 2, b / 2, k - 1);
      }
    }
  }

  /** The low bit and the rest of `2 * q + r`. */
  lemma LowBit(q: nat, r: nat)
    requires r < 2
    ensures (2 * q + r) / 2 == q && (2 * q + r) % 2 == r
  {
    DivOfMultiple(2, q, r);
  }

  lemma {:induction false} OrBit(a: nat, b: nat, k: nat)
    ensures Bit(Or(a, b), k) == (if Bit(a, k) == 1 || Bit(b, k) == 1 then 1 else 0)
    decreases a + b
  {
    if a == 0 {
      BitOfZero(k);
    } else if b == 0 {
      BitOfZero(k);
    } else if k > 0 {
      OrBit(a / 2, b / 2, k - 1);
    }
  }

  /** `&`, `|` and `^` of two values below 2^k stay below 2^k. */
  lemma {:induction false} BitwiseBound(a: nat, b: nat, k: nat)
    requires a < Pow2(k) && b < Pow2(k)
    ensures And(a, b) < Pow2(k) && Or(a, b) < Pow2(k) && Xor(a, b) < Pow2(k)
    decreases k
  {
    if k > 0 && a != 0 && b != 0 {
      BitwiseBound(a / 2, b / 2, k - 1);
    }
  }

  /** The byte operators the CPU uses. */
  function And8(a: byte, b: byte): (r: byte)
    ensures forall k :: 0 <= k < 8 ==> Bit(r, k) == Bit(a, k) * Bit(b, k)
  {
    BitwiseBound(a, b, 8);
    forall k | 0 <= k < 8 { AndBit(a, b, k); }
    And(a, b)
  }

  function Or8(a: byte, b: byte): (r: byte)
    ensures forall k :: 0 <= k < 8 ==> Bit(r, k) == (if Bit(a, k) == 1 || Bit(b, k) == 1 then 1 else 0)
  {
    BitwiseBound(a, b, 8);
    forall k | 0 <= k < 8 { OrBit(a, b, k); }
    Or(a, b)
  }

  function Xor8(a: byte, b: byte): (r: byte)
    ensures forall k :: 0 <= k < 8 ==> Bit(r, k) == (Bit(a, k) + Bit(b, k)) % 2
  {
    BitwiseBound(a, b, 8);
    forall k | 0 <= k < 8 { XorBit(a, b, k); }
    Xor(a, b)
  }

  /** For a byte, bit 7 as the CPU tests it (`& 0x80`) is its sign bit. */
  lemma ByteBit7(x: byte)
    ensures Bit(x, 7) == Bit7(x) == (if x >= 128 then 1 else 0)
  {
    BitIsDivision(x, 7);
  }
}
