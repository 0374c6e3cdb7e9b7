/**
 * Go's 64-bit signed integers (`int` on a 64-bit platform, `int64`), with
 * the two's-complement wrap-around Go applies to `*` and `+`.
 */
module GoInt {

  const MinInt64: int := -0x8000_0000_0000_0000
  const MaxInt64: int := 0x7fff_ffff_ffff_ffff
  const TwoTo64: int := 0x1_0000_0000_0000_0000

  type Int64 = x: int | MinInt64 <= x <= MaxInt64

  /** The int64 that Go's arithmetic leaves for the mathematical value `x`. */
  function Wrap(x: int): (r: Int64)
    ensures (r - x) % TwoTo64 == 0
    ensures MinInt64 <= x <= MaxInt64 ==> r == x
  {
    (x - MinInt64) % TwoTo64 + MinInt64
  }

  function Mul(a: Int64, b: Int64): Int64 { Wrap(a * b) }

  function Add(a: Int64, b: Int64): Int64 { Wrap(a + b) }
}
