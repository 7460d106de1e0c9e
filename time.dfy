/** Points in time as JavaScript's `Date` holds them. */
module Time {
  /** A `Date`: milliseconds since the epoch, only compared and copied. */
  type Instant = int

  const MillisPerDay: int := 86_400_000

  /** `new Date('2024-01-DD')`: midnight UTC of day `day` of January 2024
      (2024-01-01T00:00:00Z is 1704067200000 ms after the epoch). */
  function January2024(day: int): (r: Instant)
    requires 1 <= day <= 31
    ensures r == 1_704_067_200_000 + (day - 1) * MillisPerDay
  {
    1_704_067_200_000 + (day - 1) * MillisPerDay
  }
}
