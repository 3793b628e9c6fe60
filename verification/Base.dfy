/** Vocabulary shared by every module: optional values, results, identifiers and time. */
module Base {

  datatype Option<+T> = None | Some(value: T)

  datatype Result<+T, +E> = Success(value: T) | Failure(error: E)

  /** Row identifiers. The source draws UUIDs; here a counter stands for the fresh draw. */
  type Id = nat

  /** Microseconds since the epoch, in UTC. */
  type Time = int

  const SECOND: Time := 1_000_000
  const DAY: Time := 86_400 * SECOND

  /** Midnight, in UTC, of the day `moment` falls in. */
  function StartOfUtcDay(moment: Time): (start: Time)
    ensures start <= moment < start + 86_400_000_000
    ensures start % 86_400_000_000 == 0
  {
    assert (moment - moment % DAY) % DAY == 0 by {
      assert moment - moment % DAY == (moment / DAY) * DAY;
    }
    moment - moment % DAY
  }

  /** A day start is determined by any moment of its day. */
  lemma {:induction false} DayStartIsUnique(moment: Time, start: Time)
    requires start % DAY == 0 && start <= moment < start + DAY
    ensures start == StartOfUtcDay(moment)
  {
    var other := StartOfUtcDay(moment);
    assert start == (start / DAY) * DAY && other == (other / DAY) * DAY;
  }

  /** A later moment never falls in an earlier day. */
  lemma {:induction false} DayStartIsMonotone(earlier: Time, later: Time)
    requires earlier <= later
    ensures StartOfUtcDay(earlier) <= StartOfUtcDay(later)
  {
    var a, b := StartOfUtcDay(earlier), StartOfUtcDay(later);
    assert a == (a / DAY) * DAY && b == (b / DAY) * DAY;
  }

  lemma {:induction false} SubsetIsSmaller<T>(a: set<T>, b: set<T>)
    requires a <= b
    ensures |a| <= |b|
  {
    assert b == a + (b - a);
  }

  lemma {:induction false} Disjoint<T>(a: set<T>, b: set<T>)
    requires a !! b
    ensures |a + b| == |a| + |b|
  {
  }
}
