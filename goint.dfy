/** Go's 64-bit `int` arithmetic, where the model depends on it. */
module GoInt {

  const MinInt64: int := -0x8000_0000_0000_0000
  const MaxInt64: int := 0x7FFF_FFFF_FFFF_FFFF
  const TwoTo64: int := 0x1_0000_0000_0000_0000

  /** The values a Go `int` (64 bits wide) can hold. */
  predicate InInt64(x: int) {
    MinInt64 <= x <= MaxInt64
  }

  /** Go's `a / b` on integers, which truncates toward zero (Dafny's `/` is Euclidean). */
  function Quot(a: int, b: int): int
    requires b != 0
  {
    if a >= 0 then (if b > 0 then a / b else -(a / -b))
    else (if b > 0 then -((-a) / b) else (-a) / (-b))
  }

  /** Go's `a % b`: the remainder that goes with `Quot`, carrying the sign of `a`. */
  function Rem(a: int, b: int): int
    requires b != 0
  {
    a - b * Quot(a, b)
  }

  /** The two's-complement wrap-around Go applies when an `int` product or sum overflows. */
  function Wrap64(x: int): (r: int)
    ensures InInt64(r)
    ensures InInt64(x) ==> r == x
  {
    (x - MinInt64) % TwoTo64 + MinInt64
  }

  /** On a non-negative dividend and a positive divisor, Go's operators agree with Dafny's. */
  lemma QuotRemNonNegative(a: int, b: int)
    requires a >= 0 && b > 0
    ensures Quot(a, b) == a / b && Rem(a, b) == a % b
  {
  }
}
