/** Java's 32-bit `int`: its range and the wrap-around of `i++`. */
module JavaInt {

  const MinInt32: int := -0x8000_0000
  const MaxInt32: int := 0x7fff_ffff

  /** A value a Java `int` can hold. */
  type Int32 = x: int | MinInt32 <= x <= MaxInt32

  /** `i++` on a Java `int`: Integer.MAX_VALUE wraps to Integer.MIN_VALUE. */
  function Increment(i: Int32): (r: Int32)
    ensures i < MaxInt32 ==> r == i + 1
    ensures i == MaxInt32 ==> r == MinInt32
  {
    (i + 1 - MinInt32) % 0x1_0000_0000 + MinInt32
  }

}
