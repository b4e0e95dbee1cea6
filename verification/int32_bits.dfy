/** The two's-complement behaviour of C# `int` that the quaternion hash relies
    on. A value of type `int` is represented by its 32 bits, so `^` and `<<`
    are the bit-vector operators unchanged (the left shift discards the bits
    it pushes out, exactly as C# does on an unchecked `int`). */
module Int32Bits {

  /** The sign bit of a 32-bit two's-complement integer. */
  const SignBit: bv32 := 0x8000_0000

  const AllOnes: bv32 := 0xFFFF_FFFF

  predicate IsNegative(b: bv32) {
    b & SignBit != 0
  }

  /** C# `>>` on `int`: an arithmetic shift, which fills the vacated high bits
      with copies of the sign bit. Dafny's `>>` on `bv32` is a logical shift,
      so the fill is written out. */
  function ShiftRight(b: bv32, k: bv32): (r: bv32)
    requires 0 < k < 32
    ensures !IsNegative(b) ==> r == b >> k
    ensures IsNegative(b) ==> r & !(AllOnes >> k) == !(AllOnes >> k)
  {
    if IsNegative(b) then (b >> k) | !(AllOnes >> k) else b >> k
  }

  /** Shifting back by the same amount recovers `b` with its low `k` bits
      cleared: the arithmetic shift moves every bit of `b` above position `k`
      down by `k` places and loses nothing else. */
  lemma ShiftRightKeepsHighBits(b: bv32, k: bv32)
    requires 0 < k < 32
    ensures ShiftRight(b, k) << k == b & (AllOnes << k)
  {
    if IsNegative(b) {
      assert ShiftRight(b, k) == (b >> k) | !(AllOnes >> k);
      assert (!(AllOnes >> k)) << k == 0;
    } else {
      assert ShiftRight(b, k) == b >> k;
    }
  }

  /** The result keeps the sign of its argument: the top `k + 1` bits of the
      shifted value are all copies of the sign bit of `b`. */
  lemma ShiftRightFillsWithSign(b: bv32, k: bv32)
    requires 0 < k < 32
    ensures IsNegative(ShiftRight(b, k)) <==> IsNegative(b)
    ensures ShiftRight(b, k) >> (31 - k) == if IsNegative(b) then AllOnes >> (31 - k) else 0
  {
  }
}
