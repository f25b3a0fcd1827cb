/** `TimeRange(start, end)`: a time-of-day window and its length in minutes. */
module TimeRanges {
  import opened Text
  import opened Calendar

  /** `LocalTime.plusHours`: arithmetic modulo one day, so adding 24 hours gives the same time. */
  function PlusHours(t: Time, hours: int): (r: Time)
    ensures (r - t - hours * 3600) % 86400 == 0
  {
    (t + hours * 3600) % 86400
  }

  /** `Duration.between(a, b).toMinutes()`: whole minutes from a to b, truncated toward zero. */
  function DurationMinutes(a: Time, b: Time): (r: int)
    ensures a <= b ==> 60 * r <= b - a < 60 * r + 60
    ensures b <= a ==> r <= 0
  {
    Quot(b - a, 60)
  }

  datatype TimeRange = TimeRange(start: Time, end: Time) {

    /**
     * `minutes()`. The end is moved by `plusHours(24)` when it lies before the
     * start, which wraps back to the same time, so a window that crosses
     * midnight measures 0 rather than running into the next day.
     */
    function Minutes(): (r: int)
      ensures 0 <= r < 1440
      ensures start <= end ==> 60 * r <= end - start < 60 * r + 60
      ensures end < start ==> r == 0
    {
      var effectiveEnd := if end < start then PlusHours(end, 24) else end;
      var mins := DurationMinutes(start, effectiveEnd);
      if mins < 0 then 0 else mins
    }
  }

  /** 23:30 to 00:30 measures 0 minutes, not the 60 a next-day end would give. */
  lemma MidnightCrossingMeasuresZero()
    ensures TimeRange(TimeOf(23, 30, 0), TimeOf(0, 30, 0)).Minutes() == 0
    ensures TimeRange(TimeOf(9, 0, 0), TimeOf(10, 30, 0)).Minutes() == 90
  {
  }

  /** Equal ends measure 0, and seconds below a whole minute are dropped. */
  lemma EqualEndsMeasureZero(t: Time)
    ensures TimeRange(t, t).Minutes() == 0
  {
  }
}
