/** Local day numbers and the time range of a local day, for a fixed offset from UTC. */
module DayBucket {
  /** Go's integer division, which truncates toward zero. */
  function TruncDiv(a: int, b: int): int
    requires b > 0
  {
    if a >= 0 then a / b else -(-a / b)
  }

  /** The local day a Unix time falls on. */
  function DayBucketOf(offset: int, t: int): int {
    TruncDiv(t + offset, 86400)
  }

  function DayStart(offset: int, day: int): int {
    day * 86400 - offset
  }

  /** The half-open time range of a local day. */
  predicate InDay(offset: int, day: int, t: int) {
    DayStart(offset, day) <= t < DayStart(offset, day + 1)
  }

  /** DayRange inverts DayBucketOf on every local time from 1970 on, and before that only at midnight. */
  lemma BucketAndRangeAreInverse(offset: int, t: int)
    ensures (forall day :: DayBucketOf(offset, t) == day <==> InDay(offset, day, t)) <==> t + offset >= 0 || (t + offset) % 86400 == 0
  {
    var x := t + offset;
    var floor := x / 86400;
    assert InDay(offset, floor, t);
    if x >= 0 {
      assert DayBucketOf(offset, t) == floor;
    } else if x % 86400 == 0 {
      assert -x == -floor * 86400;
      assert DayBucketOf(offset, t) == floor;
    } else {
      assert DayBucketOf(offset, t) == floor + 1;
      assert !InDay(offset, floor + 1, t);
    }
  }
}
