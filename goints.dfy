/**
 * Go's 64-bit signed integers, the representation of int and of
 * time.Duration (nanoseconds), with the wrap-around of their arithmetic.
 */
module GoInts {

  const MinInt64: int := -0x8000_0000_0000_0000
  const MaxInt64: int := 0x7fff_ffff_ffff_ffff
  const TwoTo64: int := 0x1_0000_0000_0000_0000

  type Int64 = x: int | MinInt64 <= x <= MaxInt64

  /** Two integers that agree modulo 2^64, i.e. have the same 64-bit representation. */
  predicate Congruent64(a: int, b: int) {
    (a - b) % TwoTo64 == 0
  }

  /** Two's-complement wrap-around of a mathematical integer into 64 bits. */
  function Wrap64(x: int): (r: Int64)
    ensures MinInt64 <= x <= MaxInt64 ==> r == x
    ensures Congruent64(r, x)
  {
    var m := (x - MinInt64) % TwoTo64;
    assert (m + MinInt64) - x == TwoTo64 * -((x - MinInt64) / TwoTo64);
    m + MinInt64
  }

  /** Adding to a wrapped value wraps to the same result as adding first. */
  lemma WrapSum(x: int, y: int)
    ensures Congruent64(Wrap64(Wrap64(x) + y), x + y)
  {
  }
}
