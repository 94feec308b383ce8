/**
  The Go value types the service works with, stated in Dafny's terms.

  Go's `int` is 64 bits wide on the platforms the service targets, so it is a
  subset of Dafny's unbounded `int`; where the source does arithmetic that can
  overflow, the wrap-around is written out with `Wrap64`. Floating-point values
  are never computed with anywhere in the core: they are carried as opaque
  IEEE-754 bit patterns.
 */
module GoLib {

  /** Go's `nil`-or-value, used for pointer and `error` results. */
  datatype Option<+T> = None | Some(value: T)

  const MinInt64: int := -0x8000_0000_0000_0000
  const MaxInt64: int := 0x7fff_ffff_ffff_ffff
  const TwoTo64: int := 0x1_0000_0000_0000_0000

  /** Go's `int` (and `int64`, `time.Duration`) on a 64-bit platform. */
  type Int = x: int | MinInt64 <= x <= MaxInt64

  /** Two's-complement wrap-around into 64 bits: what Go's signed integer
      arithmetic does silently on overflow. */
  function Wrap64(x: int): (r: Int)
    ensures (r - x) % TwoTo64 == 0
    ensures MinInt64 <= x <= MaxInt64 ==> r == x
  {
    (x - MinInt64) % TwoTo64 + MinInt64
  }

  /** A Go `float64`, carried as its bit pattern and never inspected. */
  datatype Float64 = Float64(bits: bv64)

  /** The zero value of `float64` (positive zero). */
  const Zero: Float64 := Float64(0)

  /** True when `s` ends with `suffix`. */
  predicate EndsWith(s: string, suffix: string)
  {
    |suffix| <= |s| && s[|s| - |suffix|..] == suffix
  }
}
