/** Timestamps as .NET represents them: a count of 100-nanosecond ticks since
    0001-01-01 UTC. Only the two conversions the wire format uses are modelled;
    the constants are those of `DateTimeOffset`. */
module Time {
  import opened Wrappers

  const TicksPerMillisecond: int := 10000
  /** Ticks of 1970-01-01T00:00:00Z. */
  const UnixEpochTicks: int := 621355968000000000
  const UnixEpochMilliseconds: int := 62135596800000
  /** Ticks of 9999-12-31T23:59:59.9999999. */
  const MaxTicks: int := 3155378975999999999
  const MinUnixMilliseconds: int := -62135596800000
  const MaxUnixMilliseconds: int := 253402300799999

  type Ticks = t: int | 0 <= t <= MaxTicks

  /** A point in time, kept in UTC (the UTC offset of a `DateTimeOffset` is not modelled). */
  datatype Instant = Instant(utcTicks: Ticks)

  /** `DateTimeOffset.ToUnixTimeMilliseconds`: whole milliseconds since the Unix epoch,
      dropping the sub-millisecond ticks. */
  function ToUnixTimeMilliseconds(t: Instant): (ms: int)
    ensures MinUnixMilliseconds <= ms <= MaxUnixMilliseconds
    ensures (ms + UnixEpochMilliseconds) * TicksPerMillisecond <= t.utcTicks
              < (ms + UnixEpochMilliseconds + 1) * TicksPerMillisecond
  {
    t.utcTicks / TicksPerMillisecond - UnixEpochMilliseconds
  }

  /** `DateTimeOffset.FromUnixTimeMilliseconds`: rejects values outside the representable
      range with an argument-out-of-range error. */
  function FromUnixTimeMilliseconds(ms: int): (r: Result<Instant>)
    ensures r.Ok? <==> MinUnixMilliseconds <= ms <= MaxUnixMilliseconds
    ensures r.Ok? ==> ToUnixTimeMilliseconds(r.value) == ms
    ensures r.Ok? ==> r.value.utcTicks % TicksPerMillisecond == 0
  {
    if ms < MinUnixMilliseconds || ms > MaxUnixMilliseconds then
      Err("valid values are between -62135596800000 and 253402300799999, inclusive")
    else
      Ok(Instant((ms + UnixEpochMilliseconds) * TicksPerMillisecond))
  }

  /** The instant with its sub-millisecond part cut off. */
  function TruncateToMilliseconds(t: Instant): Instant {
    Instant(t.utcTicks - t.utcTicks % TicksPerMillisecond)
  }

  /** A timestamp written as Unix milliseconds and read back keeps exactly its
      whole milliseconds: the round trip truncates, and is exact for millisecond-aligned instants. */
  lemma MillisecondRoundTrip(t: Instant)
    ensures FromUnixTimeMilliseconds(ToUnixTimeMilliseconds(t)) == Ok(TruncateToMilliseconds(t))
    ensures t.utcTicks % TicksPerMillisecond == 0 ==>
              FromUnixTimeMilliseconds(ToUnixTimeMilliseconds(t)) == Ok(t)
  {
    var ms := ToUnixTimeMilliseconds(t);
    assert (ms + UnixEpochMilliseconds) * TicksPerMillisecond
        == (t.utcTicks / TicksPerMillisecond) * TicksPerMillisecond;
  }
}
