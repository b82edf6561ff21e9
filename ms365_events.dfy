// Microsoft 365 calendar: the events the integration reads from the service
// and their start and end times.

module Ms365Events {
  import opened Common

  const SecondsPerDay := 86400

  /**
   * A start or end: a calendar day (the ordinal day number, for all-day
   * events) or a wall-clock time in seconds with its UTC offset, absent for a
   * naive time.
   */
  datatype When = OnDay(day: int) | At(wall: int, offset: Option<int>)

  /** The service's event, as far as the integration reads it. */
  datatype Event = Event(objectId: string, subject: string, start: When, end: When, isAllDay: bool,
                         seriesMasterId: Option<string>)

  /**
   * `to_datetime` followed by the conversion to UTC: a day becomes the start
   * of that day in the host zone (`zoneOffset` seconds east of UTC), a naive
   * time is read in the host zone, and an aware time keeps its instant.
   */
  function ToUtc(w: When, zoneOffset: int): int
  {
    match w
    case OnDay(d) => d * SecondsPerDay - zoneOffset
    case At(wall, offset) => wall - offset.GetOr(zoneOffset)
  }

  /** A day's instant is a whole day in the host zone; a time's instant reads back as its wall time in its own zone. */
  lemma ToUtcReadsBack(w: When, zoneOffset: int)
    ensures var t := ToUtc(w, zoneOffset);
            (w.OnDay? ==> (t + zoneOffset) % SecondsPerDay == 0 && (t + zoneOffset) / SecondsPerDay == w.day) &&
            (w.At? && w.offset.Some? ==> t + w.offset.value == w.wall) &&
            (w.At? && w.offset.None? ==> t + zoneOffset == w.wall)
  {
    if w.OnDay? {
      assert ToUtc(w, zoneOffset) + zoneOffset == w.day * SecondsPerDay;
    }
  }

  /** Every time of a day comes at or after that day's start, and before the next day's. */
  lemma DayStartsItsTimes(day: int, seconds: int, zoneOffset: int)
    requires 0 <= seconds < SecondsPerDay
    ensures ToUtc(OnDay(day), zoneOffset) <= ToUtc(At(day * SecondsPerDay + seconds, None), zoneOffset)
                                           < ToUtc(OnDay(day + 1), zoneOffset)
  {
  }
}
