/**
 * Range: an immutable pair of Java ints. The constructor stores both
 * bounds as given; nothing checks that min <= max.
 */
module Ranges {
  import opened JavaInt

  datatype Range = Range(min: Int32, max: Int32) {

    /** How many integers lie in [min, max]: none when the range is reversed. */
    function Size(): (n: nat)
      ensures n == |Between(min, max)|
      ensures n == 0 <==> min > max
      ensures min <= max ==> min + n - 1 == max
    {
      BetweenSize(min, max);
      if min <= max then max - min + 1 else 0
    }
  }

  predicate Within(lo: int, x: int, hi: int) {
    lo <= x <= hi
  }

  /** The integers x with lo <= x <= hi. */
  function Between(lo: int, hi: int): set<int> {
    set x: int | lo <= x <= hi && Within(lo, x, hi)
  }

  /** Counting [lo, hi] one end at a time: hi - lo + 1 integers, none when lo > hi. */
  lemma {:induction false} BetweenSize(lo: int, hi: int)
    ensures |Between(lo, hi)| == if lo <= hi then hi - lo + 1 else 0
    decreases hi - lo + 1
  {
    if lo > hi {
      assert Between(lo, hi) == {};
    } else {
      BetweenSize(lo + 1, hi);
      assert Between(lo, hi) == {lo} + Between(lo + 1, hi);
      assert lo !in Between(lo + 1, hi);
    }
  }

}
