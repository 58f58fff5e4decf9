/** Fixed-width integers of the settings stream and the C++ conversions
    between them, written out explicitly over Dafny's unbounded `int`. */
module Ints {

  const TwoTo16: int := 0x1_0000
  const TwoTo31: int := 0x8000_0000
  const TwoTo32: int := 0x1_0000_0000
  const TwoTo63: int := 0x8000_0000_0000_0000
  const TwoTo64: int := 0x1_0000_0000_0000_0000

  type byte = x: int | 0 <= x < 0x100
  type u16 = x: int | 0 <= x < 0x1_0000
  type i32 = x: int | -0x8000_0000 <= x < 0x8000_0000
  type u32 = x: int | 0 <= x < 0x1_0000_0000
  type i64 = x: int | -0x8000_0000_0000_0000 <= x < 0x8000_0000_0000_0000
  type u64 = x: int | 0 <= x < 0x1_0000_0000_0000_0000

  const Int32Max: i32 := 0x7FFF_FFFF
  const Int64Max: i64 := 0x7FFF_FFFF_FFFF_FFFF

  /** `qint32(x)`: keep the low 32 bits of `x` and read them as two's complement. */
  function ToInt32(x: int): (r: i32)
    ensures (r - x) % TwoTo32 == 0
    ensures -TwoTo31 <= x < TwoTo31 ==> r == x
  {
    var low := x % TwoTo32;
    if low < TwoTo31 then low else low - TwoTo32
  }

  /** `uint32(x)`: the low 32 bits of `x` read as unsigned. */
  function ToUInt32(x: int): (r: u32)
    ensures (r - x) % TwoTo32 == 0
    ensures 0 <= x < TwoTo32 ==> r == x
  {
    x % TwoTo32
  }

  /** The conversion C++ applies to a signed operand compared with a 64-bit
      `size_t`, and the value of unary minus on a `size_t`. */
  function ToSize(x: int): (r: u64)
    ensures (r - x) % TwoTo64 == 0
    ensures 0 <= x < TwoTo64 ==> r == x
  {
    x % TwoTo64
  }

  /** Bit `n` of the two's complement representation of `x` (what `x & (1 << n)`
      tests in C++); Dafny's `/` and `%` round towards negative infinity for a
      positive divisor, which is what two's complement shifting does. */
  function Bit(x: int, n: nat): (b: bool)
  {
    (x / Pow2(n)) % 2 == 1
  }

  function Pow2(n: nat): (p: nat)
    ensures p >= 1
  {
    if n == 0 then 1 else 2 * Pow2(n - 1)
  }

  /** `std::abs` on a 32-bit int; `std::abs(INT32_MIN)` has no representable
      result and is modelled as returning its argument, as two's complement
      hardware does. */
  function Abs32(x: i32): (r: i32)
    ensures x != -TwoTo31 ==> r >= 0 && (r == x || r == -x)
    ensures x == -TwoTo31 ==> r == x
  {
    if x >= 0 then x else if x == -TwoTo31 then x else -x
  }

  lemma Int64MaxAsInt32()
    ensures ToInt32(Int64Max) == -1
  {
  }
}
