/**
 * Unsigned machine words of the Rust code: `u8` and `u16` as bounded integers,
 * and the big-endian split of an opcode into the two bytes that are stored for it.
 * Wrap-around is never implicit: where the Rust code wraps or truncates, the
 * model says so with an explicit `% 0x100` or `/ 0x100`.
 */
module Words {

  type u8 = x: int | 0 <= x < 0x100

  type u16 = x: int | 0 <= x < 0x1_0000

  /** `((opcode & 0xFF00) >> 8) as u8` */
  function HighByte(w: u16): (b: u8)
    ensures b * 0x100 <= w < (b + 1) * 0x100
  {
    w / 0x100
  }

  /** `(opcode & 0x00FF) as u8` */
  function LowByte(w: u16): (b: u8)
    ensures (w - b) % 0x100 == 0
  {
    w % 0x100
  }

  /** The opcode stored as two bytes, high byte first; reading them back gives the opcode. */
  function Bytes(w: u16): (bs: seq<u8>)
    ensures |bs| == 2 && bs[0] as int * 0x100 + bs[1] as int == w
  {
    [HighByte(w), LowByte(w)]
  }

  // ---------------------------------------------------------------------------
  // Bitwise operations on bytes, bit by bit from the least significant
  // ---------------------------------------------------------------------------

  function Pow2(n: nat): nat
  {
    if n == 0 then 1 else 2 * Pow2(n - 1)
  }

  datatype BitOp = AndOp | OrOp | XorOp

  function Combine(op: BitOp, p: bool, q: bool): bool
  {
    match op
    case AndOp => p && q
    case OrOp => p || q
    case XorOp => p != q
  }

  /** The low `width` bits of `a` and `b` combined bit by bit with `op`. */
  function Bitwise(op: BitOp, a: nat, b: nat, width: nat): (r: nat)
    ensures r < Pow2(width)
  {
    if width == 0 then 0
    else (if Combine(op, a % 2 == 1, b % 2 == 1) then 1 else 0) + 2 * Bitwise(op, a / 2, b / 2, width - 1)
  }

  lemma ByteWidth()
    ensures Pow2(8) == 0x100
  {
  }

  /** `a & b` */
  function And(a: u8, b: u8): u8
  {
    ByteWidth();
    Bitwise(AndOp, a, b, 8)
  }

  /** `a | b` */
  function Or(a: u8, b: u8): u8
  {
    ByteWidth();
    Bitwise(OrOp, a, b, 8)
  }

  /** `a ^ b` */
  function Xor(a: u8, b: u8): u8
  {
    ByteWidth();
    Bitwise(XorOp, a, b, 8)
  }

  lemma {:induction false} XorTwiceBits(a: nat, b: nat, width: nat)
    requires a < Pow2(width)
    ensures Bitwise(XorOp, Bitwise(XorOp, a, b, width), b, width) == a
  {
    if width > 0 {
      XorTwiceBits(a / 2, b / 2, width - 1);
      assert Bitwise(XorOp, a, b, width) / 2 == Bitwise(XorOp, a / 2, b / 2, width - 1);
    }
  }

  /** Exclusive or with the same byte twice gives the first byte back. */
  lemma XorTwice(a: u8, b: u8)
    ensures Xor(Xor(a, b), b) == a
  {
    ByteWidth();
    XorTwiceBits(a, b, 8);
  }

  lemma {:induction false} AndWithinBits(a: nat, mask: nat, width: nat)
    requires mask < Pow2(width)
    ensures Bitwise(OrOp, Bitwise(AndOp, a, mask, width), mask, width) == mask
    ensures Bitwise(AndOp, a, mask, width) <= mask
  {
    if width > 0 {
      AndWithinBits(a / 2, mask / 2, width - 1);
      assert Bitwise(AndOp, a, mask, width) / 2 == Bitwise(AndOp, a / 2, mask / 2, width - 1);
    }
  }

  /** `a & mask` has no bit outside `mask`: or-ing it into `mask` changes nothing. */
  lemma AndWithin(a: u8, mask: u8)
    ensures Or(And(a, mask), mask) == mask && And(a, mask) <= mask
  {
    ByteWidth();
    AndWithinBits(a, mask, 8);
  }
}
