/** Fixed-width integers of C#, and the unchecked (wrapping) arithmetic the
    compiler emits by default. */
module MachineInts {

  /** C# `int`. */
  newtype int32 = x: int | -0x8000_0000 <= x < 0x8000_0000

  /** C# `ushort`. */
  newtype uint16 = x: int | 0 <= x < 0x1_0000

  const Int32Max: int := 0x7FFF_FFFF
  const Int32Min: int := -0x8000_0000

  /** The `int` an unchecked C# computation yields for the exact value `x`:
      `x` reduced modulo 2^32 into the signed range. */
  function WrapInt32(x: int): (r: int32)
    ensures (r as int - x) % 0x1_0000_0000 == 0
    ensures Int32Min <= x <= Int32Max ==> r as int == x
  {
    ((x + 0x8000_0000) % 0x1_0000_0000 - 0x8000_0000) as int32
  }

  /** `int.MaxValue + 1` wraps to `int.MinValue`. */
  lemma WrapInt32Overflow()
    ensures WrapInt32(Int32Max + 1) as int == Int32Min
  {
  }
}
