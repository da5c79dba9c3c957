/**
 * Watering-cycle progress (lib/dateUtils.ts). Instants are integer epoch
 * milliseconds and a day is a fixed 86,400,000 ms; the ratio is an exact real.
 * The wall clock that `dayjs()` reads is the parameter `now`.
 */
module DateUtils {
  import JsMath

  const MillisPerDay: int := 86_400_000

  /** `now.diff(last, 'day', true)`: the elapsed time in days, fractions kept. */
  function DiffDays(now: int, last: int): (d: real)
    ensures d * (MillisPerDay as real) == (now - last) as real
  {
    (now - last) as real / (MillisPerDay as real)
  }

  /**
   * `getWaterProgress`: the elapsed days divided by the interval, clamped to
   * [0, 1]. The code does not guard the interval; zero would divide by zero,
   * so it is excluded, while negative intervals are kept as the code has them.
   */
  function WaterProgress(lastWateredAt: int, waterEveryDays: real, now: int): (r: real)
    requires waterEveryDays != 0.0
    ensures 0.0 <= r <= 1.0
  {
    var diffDays := DiffDays(now, lastWateredAt);
    var ratio := diffDays / waterEveryDays;
    JsMath.Max(0.0, JsMath.Min(1.0, ratio))
  }

  /** The unclamped ratio, for a positive interval, has the sign of the elapsed time. */
  lemma RatioSign(elapsed: real, days: real)
    requires days > 0.0
    ensures (elapsed / days <= 0.0) == (elapsed <= 0.0)
    ensures (elapsed / days >= 1.0) == (elapsed >= days)
  {
  }

  /** No time has passed, or the clock is behind the watering instant: progress 0. */
  lemma ProgressZeroUntilTimePasses(lastWateredAt: int, waterEveryDays: real, now: int)
    requires waterEveryDays > 0.0
    ensures WaterProgress(lastWateredAt, waterEveryDays, now) == 0.0 <==> now <= lastWateredAt
  {
  }

  /** A whole interval or more has elapsed exactly when progress is 1. */
  lemma ProgressFullWhenDue(lastWateredAt: int, waterEveryDays: real, now: int)
    requires waterEveryDays > 0.0
    ensures WaterProgress(lastWateredAt, waterEveryDays, now) == 1.0
            <==> DiffDays(now, lastWateredAt) >= waterEveryDays
  {
    RatioSign(DiffDays(now, lastWateredAt), waterEveryDays);
  }

  /** Within the cycle, progress is the exact fraction of the interval elapsed, partial days included. */
  lemma ProgressLinearWithinCycle(lastWateredAt: int, waterEveryDays: real, now: int)
    requires waterEveryDays > 0.0
    requires 0.0 <= DiffDays(now, lastWateredAt) <= waterEveryDays
    ensures WaterProgress(lastWateredAt, waterEveryDays, now) == DiffDays(now, lastWateredAt) / waterEveryDays
  {
  }

  /** With the watering instant and the interval fixed, progress never goes down as time advances. */
  lemma ProgressMonotoneInTime(lastWateredAt: int, waterEveryDays: real, now1: int, now2: int)
    requires waterEveryDays > 0.0
    requires now1 <= now2
    ensures WaterProgress(lastWateredAt, waterEveryDays, now1) <= WaterProgress(lastWateredAt, waterEveryDays, now2)
  {
    var d1, d2 := DiffDays(now1, lastWateredAt), DiffDays(now2, lastWateredAt);
    assert d1 <= d2;
    DivideMonotone(d1, d2, waterEveryDays);
  }

  lemma DivideMonotone(a: real, b: real, c: real)
    requires a <= b && c > 0.0
    ensures a / c <= b / c
  {
  }

  /**
   * A negative interval, which the edit form lets through, never shows any
   * progress once the watering instant is reached.
   */
  lemma NegativeIntervalNeverFills(lastWateredAt: int, waterEveryDays: real, now: int)
    requires waterEveryDays < 0.0
    requires now >= lastWateredAt
    ensures WaterProgress(lastWateredAt, waterEveryDays, now) == 0.0
  {
  }

  /** 2024-01-01T00:00:00Z, as epoch milliseconds. */
  const NewYear2024: int := 1_704_067_200_000

  /** Two days into a four-day cycle is half way. */
  lemma HalfWayExample()
    ensures WaterProgress(NewYear2024, 4.0, NewYear2024 + 2 * MillisPerDay) == 0.5
  {
  }

  /** Twelve hours count as half a day: elapsed days are not truncated. */
  lemma PartialDayExample()
    ensures WaterProgress(NewYear2024, 1.0, NewYear2024 + MillisPerDay / 2) == 0.5
  {
  }
}
