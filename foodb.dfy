/** The closed interval of the interval-containment puzzle (5/foodb). */
module FoodB {

  type u32 = x: int | 0 <= x < 0x1_0000_0000

  /** ClosedInt(lo, hi) stands for the inclusive range lo..=hi; nothing orders lo and hi. */
  datatype ClosedInt = ClosedInt(lo: u32, hi: u32)
  {
    /** Inclusive membership; a value, so it leaves the interval as it was. */
    predicate Contains(num: u32)
    {
      num >= lo && num <= hi
    }
  }

  /** Both ends of a non-empty interval belong to it. */
  lemma EndpointsContained(c: ClosedInt)
    requires c.lo <= c.hi
    ensures c.Contains(c.lo) && c.Contains(c.hi)
  {
  }

  /** An interval written high end first contains nothing. */
  lemma InvertedIsEmpty(c: ClosedInt, num: u32)
    requires c.lo > c.hi
    ensures !c.Contains(num)
  {
  }

  /** How many of the values 0 .. n - 1 the interval contains. */
  function ContainedBelow(c: ClosedInt, n: nat): nat
    requires n <= 0x1_0000_0000
  {
    if n == 0 then 0 else ContainedBelow(c, n - 1) + (if c.Contains(n - 1) then 1 else 0)
  }

  /**
   * Counting up to n, the interval has taken in every value from lo to n - 1, up to hi:
   * none while n <= lo, and none at all when written high end first.
   */
  lemma {:induction false} ContainedCount(c: ClosedInt, n: nat)
    requires n <= 0x1_0000_0000
    ensures ContainedBelow(c, n) ==
              if n <= c.lo || c.hi < c.lo then 0
              else (if n <= c.hi then n else c.hi + 1) - c.lo
  {
    if n > 0 {
      ContainedCount(c, n - 1);
    }
  }

  /** A non-empty interval contains exactly hi - lo + 1 values, none of them above hi. */
  lemma ContainsExactlyWidth(c: ClosedInt, n: nat)
    requires c.lo <= c.hi < n <= 0x1_0000_0000
    ensures ContainedBelow(c, n) == c.hi - c.lo + 1
  {
    ContainedCount(c, n);
  }

  /** The unit test: ClosedInt(10, 15) contains 10..14 and neither 9 nor 16. */
  lemma ContainsTestCases()
    ensures forall i: u32 :: 10 <= i < 15 ==> ClosedInt(10, 15).Contains(i)
    ensures !ClosedInt(10, 15).Contains(9) && !ClosedInt(10, 15).Contains(16)
  {
  }
}
