/** C# `int` arithmetic in an unchecked context: results are reduced into the Int32 range. */
module Int32 {
  const Modulus: int := 0x1_0000_0000
  const MinValue: int := -0x8000_0000
  const MaxValue: int := 0x7FFF_FFFF

  /** Whether a mathematical integer is a C# `int`. */
  predicate IsInt32(x: int) {
    MinValue <= x <= MaxValue
  }

  /** The Int32 value a mathematical result wraps to. */
  function Wrap32(x: int): int
  {
    (x + 0x8000_0000) % 0x1_0000_0000 - 0x8000_0000
  }

  /** The wrapped value is an Int32 that differs from the mathematical one by a multiple of 2^32, and is that value when it fits. */
  lemma WrapSpec(x: int)
    ensures MinValue <= Wrap32(x) <= MaxValue
    ensures (x - Wrap32(x)) % Modulus == 0
    ensures MinValue <= x <= MaxValue ==> Wrap32(x) == x
  {
  }
}
