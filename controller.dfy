/** The standard joypad: eight button bytes behind a strobe and a read index
    (src/controllers/Controller.ts). */
module Input {
  import opened Wrappers
  import opened Bits

  const BUTTON_COUNT: nat := 8

  /** What a read at index i returns: the button byte, or `undefined` past the eighth. */
  function ButtonAt(buttons: seq<byte>, i: nat): Option<byte>
  {
    if i < |buttons| then Some(buttons[i]) else None
  }

  /** The results of n reads starting at index i. */
  function Reads(buttons: seq<byte>, i: nat, n: nat): (r: seq<Option<byte>>)
    ensures |r| == n
    decreases n
  {
    if n == 0 then [] else [ButtonAt(buttons, i)] + Reads(buttons, i + 1, n - 1)
  }

  class Controller {
    var strobe: byte
    var i: nat
    const buttons: array<byte>

    ghost predicate Valid()
      reads this
    {
      buttons.Length == BUTTON_COUNT
    }

    /** No button pressed, strobe low, index 0. */
    constructor()
      ensures Valid() && fresh(buttons)
      ensures buttons[..] == seq(BUTTON_COUNT, _ => 0) && strobe == 0 && i == 0
    {
      strobe := 0;
      i := 0;
      buttons := new byte[BUTTON_COUNT](_ => 0);
    }

    /** A write latches the strobe; with bit 0 set it rewinds the read index. */
    method Write8(value: byte)
      modifies this
      ensures strobe == value
      ensures i == if value % 2 == 1 then 0 else old(i)
    {
      strobe := value;
      if strobe % 2 == 1 {
        i := 0;
      }
    }

    /** A read returns the button at the index, then advances the index. */
    method Read8() returns (r: Option<byte>)
      modifies this
      ensures r == ButtonAt(buttons[..], old(i)) && i == old(i) + 1 && strobe == old(strobe)
    {
      if i < buttons.Length {
        r := Some(buttons[i]);
      } else {
        r := None;
      }
      i := i + 1;
    }
  }

  /** After a strobe, eight reads return the eight buttons in order, and a ninth is undefined. */
  lemma {:induction false} ReadsAfterStrobe(buttons: seq<byte>)
    requires |buttons| == BUTTON_COUNT
    ensures Reads(buttons, 0, 9) == seq(8, k requires 0 <= k < 8 => Some(buttons[k])) + [None]
  {
    ReadsFrom(buttons, 0, 9);
  }

  lemma {:induction false} ReadsFrom(buttons: seq<byte>, i: nat, n: nat)
    ensures forall k :: 0 <= k < n ==> Reads(buttons, i, n)[k] == ButtonAt(buttons, i + k)
    decreases n
  {
    if n > 0 {
      ReadsFrom(buttons, i + 1, n - 1);
    }
  }
}
