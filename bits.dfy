/**
 * Fixed-width integers of the CHIP-8 machine and the bitwise operators the
 * interpreter applies to bytes.
 *
 * Every width is an `int` subset type, so wrap-around is always written out
 * (`% 0x100`).  Bitwise OR, AND and XOR are defined one bit at a time and are
 * proved to act on each bit independently (`BitwiseBit`) and to stay inside a
 * byte (`BitwiseBelow`).
 */
module Bits {

  /** An unsigned 4-bit field of an opcode (Rust keeps these in a `u8`). */
  type Nibble = x: int | 0 <= x < 0x10
  /** Rust `u8`. */
  type Byte = x: int | 0 <= x < 0x100
  /** Rust `u16`. */
  type Word = x: int | 0 <= x < 0x1_0000
  /** A 12-bit address, the `nnn` field of an opcode. */
  type Addr = x: int | 0 <= x < 0x1000
  /** What `random_range(0..255)` can return: the upper end is excluded. */
  type RandByte = x: int | 0 <= x < 0xFF

  function Pow2(n: nat): (p: nat)
    ensures p >= 1
  {
    if n == 0 then 1 else 2 * Pow2(n - 1)
  }

  /** Bit `i` of `a`, counting from the least significant bit. */
  predicate Bit(a: nat, i: nat)
  {
    if i == 0 then a % 2 == 1 else Bit(a / 2, i - 1)
  }

  datatype BitOp = OrOp | AndOp | XorOp

  /** The boolean operator `op` applies to each pair of bits. */
  predicate Combine(op: BitOp, p: bool, q: bool)
  {
    match op
    case OrOp => p || q
    case AndOp => p && q
    case XorOp => p != q
  }

  /** `a op b` on unbounded non-negative integers, least significant bit first. */
  function Bitwise(op: BitOp, a: nat, b: nat): nat
    decreases a + b
  {
    if a == 0 && b == 0 then 0
    else 2 * Bitwise(op, a / 2, b / 2) + (if Combine(op, a % 2 == 1, b % 2 == 1) then 1 else 0)
  }

  lemma {:induction false} ZeroHasNoBits(i: nat)
    ensures !Bit(0, i)
  {
    if i > 0 {
      ZeroHasNoBits(i - 1);
    }
  }

  /** Bit `i` of `a op b` is `op` applied to bit `i` of `a` and bit `i` of `b`. */
  lemma {:induction false} BitwiseBit(op: BitOp, a: nat, b: nat, i: nat)
    ensures Bit(Bitwise(op, a, b), i) == Combine(op, Bit(a, i), Bit(b, i))
    decreases a + b
  {
    if a == 0 && b == 0 {
      ZeroHasNoBits(i);
    } else if i > 0 {
      var r := Bitwise(op, a, b);
      assert r / 2 == Bitwise(op, a / 2, b / 2);
      BitwiseBit(op, a / 2, b / 2, i - 1);
    }
  }

  lemma BitwiseAllBits(op: BitOp, a: nat, b: nat)
    ensures forall i: nat :: Bit(Bitwise(op, a, b), i) == Combine(op, Bit(a, i), Bit(b, i))
  {
    forall i: nat
      ensures Bit(Bitwise(op, a, b), i) == Combine(op, Bit(a, i), Bit(b, i))
    {
      BitwiseBit(op, a, b, i);
    }
  }

  /** Operands of `n` bits give a result of `n` bits: bytes stay bytes. */
  lemma {:induction false} BitwiseBelow(op: BitOp, a: nat, b: nat, n: nat)
    requires a < Pow2(n) && b < Pow2(n)
    ensures Bitwise(op, a, b) < Pow2(n)
  {
    if n > 0 && !(a == 0 && b == 0) {
      BitwiseBelow(op, a / 2, b / 2, n - 1);
    }
  }

  /** `a op b` on bytes, bit by bit: Rust's `BitOr`, `BitAnd` and `BitXor` on `u8`. */
  function ByteOp(op: BitOp, a: Byte, b: Byte): (r: Byte)
    ensures forall i: nat :: Bit(r, i) == Combine(op, Bit(a, i), Bit(b, i))
  {
    assert Pow2(8) == 0x100;
    BitwiseBelow(op, a, b, 8);
    BitwiseAllBits(op, a, b);
    Bitwise(op, a, b)
  }
}
