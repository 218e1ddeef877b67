// The bitwise operators that parseOpcode applies to uint8 registers (8xy1
// OR, 8xy2 AND, 8xy3 XOR, Cxkk AND), defined on integers bit by bit: the
// lowest bit of the result, plus twice the operator on the remaining bits.

module Bits {
  import opened Opcode

  /** 2 to the power w. */
  function Pow2(w: nat): (p: nat)
    ensures p >= 1
  {
    if w == 0 then 1 else 2 * Pow2(w - 1)
  }

  /** a & b. No bit is set that is not set in both, so it is at most either. */
  function BitAnd(a: nat, b: nat): (r: nat)
    ensures r <= a && r <= b
    decreases a + b
  {
    if a == 0 && b == 0 then 0
    else (if a % 2 == 1 && b % 2 == 1 then 1 else 0) + 2 * BitAnd(a / 2, b / 2)
  }

  /** a | b. */
  function BitOr(a: nat, b: nat): (r: nat)
    decreases a + b
  {
    if a == 0 && b == 0 then 0
    else (if a % 2 == 1 || b % 2 == 1 then 1 else 0) + 2 * BitOr(a / 2, b / 2)
  }

  /** a ^ b. */
  function BitXor(a: nat, b: nat): (r: nat)
    decreases a + b
  {
    if a == 0 && b == 0 then 0
    else (if a % 2 != b % 2 then 1 else 0) + 2 * BitXor(a / 2, b / 2)
  }

  /** Eight bits span the values of a byte. */
  lemma ByteWidth()
    ensures Pow2(8) == 0x100
  {
  }

  /** Or-ing two w-bit values gives a w-bit value. */
  lemma {:induction false} OrBelow(a: nat, b: nat, w: nat)
    requires a < Pow2(w) && b < Pow2(w)
    ensures BitOr(a, b) < Pow2(w)
  {
    if w > 0 && !(a == 0 && b == 0) {
      OrBelow(a / 2, b / 2, w - 1);
    }
  }

  /** Xor-ing two w-bit values gives a w-bit value. */
  lemma {:induction false} XorBelow(a: nat, b: nat, w: nat)
    requires a < Pow2(w) && b < Pow2(w)
    ensures BitXor(a, b) < Pow2(w)
  {
    if w > 0 && !(a == 0 && b == 0) {
      XorBelow(a / 2, b / 2, w - 1);
    }
  }

  /** uint8 a & b. */
  function And8(a: Byte, b: Byte): Byte {
    BitAnd(a, b)
  }

  /** uint8 a | b. */
  function Or8(a: Byte, b: Byte): Byte {
    ByteWidth();
    OrBelow(a, b, 8);
    BitOr(a, b)
  }

  /** uint8 a ^ b. */
  function Xor8(a: Byte, b: Byte): Byte {
    ByteWidth();
    XorBelow(a, b, 8);
    BitXor(a, b)
  }

  /** a & b has no bit set outside b: or-ing b back in gives b. */
  lemma {:induction false} AndWithinMask(a: nat, b: nat)
    ensures BitOr(BitAnd(a, b), b) == b
    decreases a + b
  {
    if !(a == 0 && b == 0) {
      var low := if a % 2 == 1 && b % 2 == 1 then 1 else 0;
      var r := BitAnd(a, b);
      assert r % 2 == low && r / 2 == BitAnd(a / 2, b / 2);
      AndWithinMask(a / 2, b / 2);
      if r != 0 || b != 0 {
        assert BitOr(r, b) == b % 2 + 2 * BitOr(r / 2, b / 2);
      }
    }
  }

  /** b ^ (b ^ a) == a: xor with the same operand undoes itself. */
  lemma {:induction false} XorCancels(b: nat, a: nat)
    ensures BitXor(b, BitXor(b, a)) == a
    decreases a + b
  {
    if !(a == 0 && b == 0) {
      var low := if b % 2 != a % 2 then 1 else 0;
      var r := BitXor(b, a);
      assert r % 2 == low && r / 2 == BitXor(b / 2, a / 2);
      XorCancels(b / 2, a / 2);
      if b != 0 || r != 0 {
        assert BitXor(b, r) == a % 2 + 2 * BitXor(b / 2, r / 2);
      }
    }
  }

  /** On bytes: rnd & kk has no bit outside kk. */
  lemma And8WithinMask(a: Byte, b: Byte)
    ensures Or8(And8(a, b), b) == b
  {
    AndWithinMask(a, b);
  }

  /** On bytes: b ^ (b ^ a) == a, the order in which 8xy3 applied twice
      computes it. */
  lemma Xor8Undoes(b: Byte, a: Byte)
    ensures Xor8(b, Xor8(b, a)) == a
  {
    XorCancels(b, a);
  }
}
