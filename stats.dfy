/** The bucket width of the requests-over-time chart
    (backend/src/services/stats.rs): half-hour buckets for windows of up to
    a day, six-hour buckets for longer ones. */
module Stats {
  /** `time::Duration::days(1)`, in nanoseconds. */
  const DayNanos: int := 86_400_000_000_000

  const HalfHourSeconds: int := 1800
  const SixHourSeconds: int := 21600

  /** The granularity, in seconds, for a window `end - start` given in
      nanoseconds (negative when `end` comes before `start`). */
  function Granularity(duration: int): (g: int)
    ensures g == HalfHourSeconds <==> duration <= DayNanos
    ensures g == SixHourSeconds <==> duration > DayNanos
  {
    if duration <= DayNanos then HalfHourSeconds else SixHourSeconds
  }

  /** The granularity `get_requests_over_time` passes on for instants
      `start` and `end` (nanoseconds since the epoch). */
  function RequestsOverTimeGranularity(start: int, end: int): (g: int)
    ensures g in {HalfHourSeconds, SixHourSeconds}
    ensures end <= start ==> g == HalfHourSeconds
  {
    Granularity(end - start)
  }

  /** The boundary is inclusive: exactly one day still uses half hours, one
      nanosecond more uses six hours. */
  lemma GranularityBoundary()
    ensures Granularity(DayNanos) == HalfHourSeconds
    ensures Granularity(DayNanos + 1) == SixHourSeconds
    ensures Granularity(-1) == HalfHourSeconds
  {
  }

  /** A longer window never gets finer buckets, and every bucket width
      divides a day. */
  lemma GranularityMonotone(a: int, b: int)
    requires a <= b
    ensures Granularity(a) <= Granularity(b)
    ensures (DayNanos / 1_000_000_000) % Granularity(a) == 0
  {
  }

  /** Widening a window by moving its start earlier or its end later never
      makes the buckets finer. */
  lemma WiderWindowCoarser(start: int, end: int, start': int, end': int)
    requires start' <= start && end <= end'
    ensures RequestsOverTimeGranularity(start, end) <= RequestsOverTimeGranularity(start', end')
  {
    GranularityMonotone(end - start, end' - start');
  }
}
