/** Time conventions shared by the whole model: instants are integer
    milliseconds since the Unix epoch (`Date.getTime()`), durations in hours
    are reals. */
module Time {

  const MsPerHour: int := 1000 * 60 * 60
  const MsPerDay: int := 1000 * 60 * 60 * 24
  /** The 30-minute window of `checkSensorAlerts`. */
  const MsPerHalfHour: int := 30 * 60 * 1000

  /** `ms / (1000 * 60 * 60)`: a millisecond span in hours. */
  function Hours(ms: int): real {
    ms as real / MsPerHour as real
  }

  /** `Math.ceil((t - now) / (1000 * 60 * 60 * 24))`: whole days from `now`
      until `t`, rounded up. */
  function DaysUntil(t: int, now: int): (d: int)
    ensures (d - 1) * MsPerDay < t - now <= d * MsPerDay
  {
    -((now - t) / MsPerDay)
  }

  /** `new Date(d.toISOString().split('T')[0])`: the UTC midnight that starts
      the day of `t`. */
  function DayStart(t: int): (r: int)
    ensures r <= t < r + MsPerDay
    ensures r % MsPerDay == 0
  {
    t - t % MsPerDay
  }

  /** The day count is not positive exactly when `t` is not after `now`. */
  lemma DaysUntilNotPositive(t: int, now: int)
    ensures DaysUntil(t, now) <= 0 <==> t <= now
  {
    var d := DaysUntil(t, now);
    if d <= 0 {
      assert d * MsPerDay <= 0;
    } else {
      assert (d - 1) * MsPerDay >= 0;
    }
  }

  /** The day count is at most `k` exactly when `t` is at most `k` whole days
      after `now`. */
  lemma DaysUntilAtMost(t: int, now: int, k: int)
    ensures DaysUntil(t, now) <= k <==> t - now <= k * MsPerDay
  {
    var d := DaysUntil(t, now);
    if d <= k {
      assert d * MsPerDay <= k * MsPerDay;
    } else {
      assert (d - 1) * MsPerDay >= k * MsPerDay;
    }
  }

  /** A later instant is never fewer days away. */
  lemma DaysUntilMonotone(t1: int, t2: int, now: int)
    requires t1 <= t2
    ensures DaysUntil(t1, now) <= DaysUntil(t2, now)
  {
    DaysUntilAtMost(t1, now, DaysUntil(t2, now));
  }
}
