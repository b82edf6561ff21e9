// Home maintenance: a task's next due date and its due binary sensor
// (binary_sensor.py), over a proleptic Gregorian calendar.

module Maintenance {
  import opened Common

  // ---- the calendar ------------------------------------------------------------------

  datatype Date = Date(year: int, month: int, day: int)

  predicate IsLeap(y: int)
  {
    y % 4 == 0 && (y % 100 != 0 || y % 400 == 0)
  }

  function DaysInMonth(y: int, m: int): (n: int)
    requires 1 <= m <= 12
    ensures 28 <= n <= 31
  {
    if m == 2 then (if IsLeap(y) then 29 else 28)
    else if m == 4 || m == 6 || m == 9 || m == 11 then 30
    else 31
  }

  predicate ValidDate(d: Date)
  {
    1 <= d.month <= 12 && 1 <= d.day <= DaysInMonth(d.year, d.month)
  }

  function DaysBeforeYear(y: int): int
  {
    var k := y - 1;
    365 * k + k / 4 - k / 100 + k / 400
  }

  function DaysBeforeMonth(y: int, m: int): (n: int)
    requires 1 <= m <= 13
    ensures n >= 0
  {
    if m == 1 then 0 else DaysBeforeMonth(y, m - 1) + DaysInMonth(y, m - 1)
  }

  /** Python's `date.toordinal`: 0001-01-01 is day 1. */
  function Ordinal(d: Date): int
    requires ValidDate(d)
  {
    DaysBeforeYear(d.year) + DaysBeforeMonth(d.year, d.month) + d.day
  }

  lemma YearLength(y: int)
    ensures DaysBeforeMonth(y, 13) == if IsLeap(y) then 366 else 365
    ensures DaysBeforeYear(y + 1) == DaysBeforeYear(y) + (if IsLeap(y) then 366 else 365)
  {
    MonthTotals(y);
    YearStep(y);
    LeapDivisibility(y);
  }

  function Divides(d: int, y: int): int
    requires d > 0
  {
    if y % d == 0 then 1 else 0
  }

  /** One more year adds 365 days and the leap days of the Gregorian rule. */
  lemma YearStep(y: int)
    ensures DaysBeforeYear(y + 1) - DaysBeforeYear(y) == 365 + Divides(4, y) - Divides(100, y) + Divides(400, y)
  {
    NextQuarter(y);
    NextCentury(y);
    NextQuadCentury(y);
  }

  lemma LeapDivisibility(y: int)
    ensures 365 + Divides(4, y) - Divides(100, y) + Divides(400, y) == if IsLeap(y) then 366 else 365
  {
    if y % 100 == 0 {
      assert y == 100 * (y / 100);
      assert y == 4 * (25 * (y / 100));
    }
    if y % 400 == 0 {
      assert y == 400 * (y / 400);
      assert y == 100 * (4 * (y / 400));
      assert y == 4 * (100 * (y / 400));
    }
  }

  /** The months of a year add up to 365 days, or 366 in a leap year. */
  lemma MonthTotals(y: int)
    ensures DaysBeforeMonth(y, 13) == if IsLeap(y) then 366 else 365
  {
    var feb := if IsLeap(y) then 29 else 28;
    assert DaysBeforeMonth(y, 2) == 31;
    assert DaysBeforeMonth(y, 3) == 31 + feb;
    assert DaysBeforeMonth(y, 4) == 62 + feb;
    assert DaysBeforeMonth(y, 5) == 92 + feb;
    assert DaysBeforeMonth(y, 6) == 123 + feb;
    assert DaysBeforeMonth(y, 7) == 153 + feb;
    assert DaysBeforeMonth(y, 8) == 184 + feb;
    assert DaysBeforeMonth(y, 9) == 215 + feb;
    assert DaysBeforeMonth(y, 10) == 245 + feb;
    assert DaysBeforeMonth(y, 11) == 276 + feb;
    assert DaysBeforeMonth(y, 12) == 306 + feb;
  }

  lemma NextQuarter(y: int)
    ensures y / 4 - (y - 1) / 4 == Divides(4, y)
  {
  }

  lemma NextCentury(y: int)
    ensures y / 100 - (y - 1) / 100 == Divides(100, y)
  {
  }

  lemma NextQuadCentury(y: int)
    ensures y / 400 - (y - 1) / 400 == Divides(400, y)
  {
  }

  function NextDay(d: Date): Date
    requires ValidDate(d)
  {
    if d.day < DaysInMonth(d.year, d.month) then d.(day := d.day + 1)
    else if d.month < 12 then Date(d.year, d.month + 1, 1)
    else Date(d.year + 1, 1, 1)
  }

  function PrevDay(d: Date): Date
    requires ValidDate(d)
  {
    if d.day > 1 then d.(day := d.day - 1)
    else if d.month > 1 then Date(d.year, d.month - 1, DaysInMonth(d.year, d.month - 1))
    else Date(d.year - 1, 12, 31)
  }

  lemma NextDayOrdinal(d: Date)
    requires ValidDate(d)
    ensures ValidDate(NextDay(d)) && Ordinal(NextDay(d)) == Ordinal(d) + 1
  {
    if d.day == DaysInMonth(d.year, d.month) && d.month == 12 {
      YearLength(d.year);
    }
  }

  lemma PrevDayOrdinal(d: Date)
    requires ValidDate(d)
    ensures ValidDate(PrevDay(d)) && Ordinal(PrevDay(d)) == Ordinal(d) - 1
  {
    if d.day == 1 && d.month == 1 {
      YearLength(d.year - 1);
      assert d.year - 1 + 1 == d.year;
    }
  }

  lemma OrdinalIsInjective(a: Date, b: Date)
    requires ValidDate(a) && ValidDate(b) && Ordinal(a) == Ordinal(b)
    ensures a == b
  {
    if a.year < b.year || (a.year == b.year && a.month < b.month) {
      EarlierMonthEarlierOrdinal(a, b);
      assert false;
    } else if b.year < a.year || (a.year == b.year && b.month < a.month) {
      EarlierMonthEarlierOrdinal(b, a);
      assert false;
    }
  }

  /** A date in an earlier month has a smaller ordinal. */
  lemma EarlierMonthEarlierOrdinal(a: Date, b: Date)
    requires ValidDate(a) && ValidDate(b)
    requires a.year < b.year || (a.year == b.year && a.month < b.month)
    ensures Ordinal(a) < Ordinal(b)
  {
    if a.year < b.year {
      MonthsBounded(a.year, a.month);
      YearsApart(a.year, b.year);
    } else {
      MonthsApart(a.year, a.month, b.month);
    }
  }

  lemma {:induction false} MonthsBounded(y: int, m: int)
    requires 1 <= m <= 12
    ensures DaysBeforeMonth(y, m) + DaysInMonth(y, m) <= DaysBeforeMonth(y, 13)
    decreases 13 - m
  {
    if m < 12 {
      MonthsBounded(y, m + 1);
    }
  }

  lemma {:induction false} MonthsApart(y: int, m1: int, m2: int)
    requires 1 <= m1 < m2 <= 12
    ensures DaysBeforeMonth(y, m1) + DaysInMonth(y, m1) <= DaysBeforeMonth(y, m2)
    decreases m2 - m1
  {
    if m1 + 1 < m2 {
      MonthsApart(y, m1 + 1, m2);
    }
  }

  /** Every date of an earlier year comes before every date of a later one. */
  lemma {:induction false} YearsApart(y1: int, y2: int)
    requires y1 < y2
    ensures DaysBeforeYear(y1) + DaysBeforeMonth(y1, 13) <= DaysBeforeYear(y2)
    decreases y2 - y1
  {
    YearLength(y1);
    if y1 + 1 < y2 {
      YearsApart(y1 + 1, y2);
      YearLength(y1 + 1);
    }
  }

  // ---- the range of Python dates -----------------------------------------------------

  /** The day count of 9999-12-31, the last date Python represents. */
  const MaxOrdinal := 3652059

  /** A date Python can represent: a calendar date in the years 1 to 9999. */
  predicate InRange(d: Date)
  {
    ValidDate(d) && 1 <= d.year <= 9999
  }

  /** Year 1 starts after day 0 and year 10000 starts after day MaxOrdinal. */
  lemma RangeEnds()
    ensures DaysBeforeYear(1) == 0
    ensures DaysBeforeYear(10000) == MaxOrdinal
  {
    assert 9999 / 4 == 2499 && 9999 / 100 == 99 && 9999 / 400 == 24;
  }

  /** A date's day count lies inside its own year. */
  lemma OrdinalWithinYear(d: Date)
    requires ValidDate(d)
    ensures DaysBeforeYear(d.year) < Ordinal(d) <= DaysBeforeYear(d.year + 1)
  {
    MonthsBounded(d.year, d.month);
    YearLength(d.year);
  }

  lemma DaysBeforeYearMonotone(y1: int, y2: int)
    requires y1 <= y2
    ensures DaysBeforeYear(y1) <= DaysBeforeYear(y2)
  {
    if y1 < y2 {
      YearsApart(y1, y2);
    }
  }

  /** The representable dates are exactly those whose day count lies in 1..MaxOrdinal. */
  lemma InRangeIffOrdinal(d: Date)
    requires ValidDate(d)
    ensures InRange(d) <==> 1 <= Ordinal(d) <= MaxOrdinal
  {
    RangeEnds();
    OrdinalWithinYear(d);
    if d.year < 1 {
      DaysBeforeYearMonotone(d.year + 1, 1);
    } else if d.year > 9999 {
      DaysBeforeYearMonotone(10000, d.year);
    } else {
      DaysBeforeYearMonotone(1, d.year);
      DaysBeforeYearMonotone(d.year + 1, 10000);
    }
  }

  /** `date + timedelta(days=n)`, as calendar arithmetic without range. */
  function AddDays(d: Date, n: int): Date
    requires ValidDate(d)
    decreases if n < 0 then -n else n
  {
    if n == 0 then d
    else if n > 0 then (NextDayOrdinal(d); AddDays(NextDay(d), n - 1))
    else (PrevDayOrdinal(d); AddDays(PrevDay(d), n + 1))
  }

  /**
   * Adding days moves the ordinal by exactly that many days; the result is a
   * Python date exactly when the new day count lies in 1..MaxOrdinal.
   */
  lemma AddDaysOrdinal(d: Date, n: int)
    requires ValidDate(d)
    ensures ValidDate(AddDays(d, n)) && Ordinal(AddDays(d, n)) == Ordinal(d) + n
    ensures InRange(AddDays(d, n)) <==> 1 <= Ordinal(d) + n <= MaxOrdinal
  {
    AddDaysMoves(d, n);
    InRangeIffOrdinal(AddDays(d, n));
  }

  lemma {:induction false} AddDaysMoves(d: Date, n: int)
    requires ValidDate(d)
    ensures ValidDate(AddDays(d, n)) && Ordinal(AddDays(d, n)) == Ordinal(d) + n
    decreases if n < 0 then -n else n
  {
    if n > 0 {
      NextDayOrdinal(d);
      AddDaysMoves(NextDay(d), n - 1);
    } else if n < 0 {
      PrevDayOrdinal(d);
      AddDaysMoves(PrevDay(d), n + 1);
    }
  }

  /** `date + relativedelta(months=n)`: the month moves, the day is clamped to the new month's length. */
  function AddMonths(d: Date, n: int): (r: Date)
    requires ValidDate(d)
    ensures ValidDate(r)
    ensures r.year * 12 + r.month == d.year * 12 + d.month + n
    ensures r.day == if d.day <= DaysInMonth(r.year, r.month) then d.day else DaysInMonth(r.year, r.month)
  {
    var total := d.month - 1 + n;
    var y := d.year + total / 12;
    var m := total % 12 + 1;
    Date(y, m, if d.day <= DaysInMonth(y, m) then d.day else DaysInMonth(y, m))
  }

  /** Adding months never changes a day up to 28, and adding none changes nothing. */
  lemma AddMonthsKeepsEarlyDays(d: Date, n: int)
    requires ValidDate(d)
    ensures d.day <= 28 ==> AddMonths(d, n).day == d.day
    ensures AddMonths(d, 0) == d
  {
  }

  /** `d + timedelta(days=n)` on a Python date: None where Python raises OverflowError. */
  function AddTimedelta(d: Date, n: int): (r: Option<Date>)
    requires InRange(d)
    ensures r.Some? <==> 1 <= Ordinal(d) + n <= MaxOrdinal
    ensures r.Some? ==> InRange(r.value) && Ordinal(r.value) == Ordinal(d) + n
  {
    AddDaysOrdinal(d, n);
    if 1 <= Ordinal(d) + n <= MaxOrdinal then Some(AddDays(d, n)) else None
  }

  /** `d + relativedelta(months=n)` on a Python date: None where the new year is out of range. */
  function AddRelativeMonths(d: Date, n: int): (r: Option<Date>)
    requires InRange(d)
    ensures r.Some? <==> 1 <= AddMonths(d, n).year <= 9999
    ensures r.Some? ==> InRange(r.value) && r.value == AddMonths(d, n)
  {
    var m := AddMonths(d, n);
    if 1 <= m.year <= 9999 then Some(m) else None
  }

  /** The 31st of January plus one month is the last day of February. */
  lemma EndOfJanuaryPlusOneMonth(y: int)
    ensures AddMonths(Date(y, 1, 31), 1) == Date(y, 2, if IsLeap(y) then 29 else 28)
  {
  }

  // ---- due dates -----------------------------------------------------------------------

  /** A point in time: a calendar date, seconds into the day, and an offset from UTC if known. */
  datatype DateTime = DateTime(date: Date, seconds: int, offset: Option<int>)

  /** A Python datetime: a representable date and a time of day. */
  predicate ValidDateTime(t: DateTime)
  {
    InRange(t.date) && 0 <= t.seconds < 86400
  }

  /**
   * `_calculate_next_due`, on the date part (the time of day is discarded
   * afterwards); None where the addition raises because the date leaves the
   * years 1 to 9999.
   */
  function NextDue(last: Date, n: int, kind: string): (r: Option<Date>)
    requires InRange(last)
    ensures r.Some? ==> InRange(r.value)
    ensures kind == "days" ==> (r.Some? <==> 1 <= Ordinal(last) + n <= MaxOrdinal) &&
                               (r.Some? ==> Ordinal(r.value) == Ordinal(last) + n)
    ensures kind == "weeks" ==> (r.Some? <==> 1 <= Ordinal(last) + 7 * n <= MaxOrdinal) &&
                                (r.Some? ==> Ordinal(r.value) == Ordinal(last) + 7 * n)
    ensures kind == "months" ==> (r.Some? <==> 1 <= AddMonths(last, n).year <= 9999) &&
                                 (r.Some? ==> r.value == AddMonths(last, n))
    ensures kind !in {"days", "weeks", "months"} ==> r == Some(last)
  {
    if kind == "days" then AddTimedelta(last, n)
    else if kind == "weeks" then AddTimedelta(last, 7 * n)
    else if kind == "months" then AddRelativeMonths(last, n)
    else Some(last)
  }

  /** An interval of zero makes the maintenance task due on the day it was performed. */
  lemma ZeroIntervalIsDueAtOnce(last: Date, kind: string)
    requires InRange(last)
    ensures NextDue(last, 0, kind) == Some(last)
  {
    InRangeIffOrdinal(last);
    AddDaysOrdinal(last, 0);
  }

  /** One day after 9999-12-31 cannot be represented: the days step raises. */
  lemma LastDatePlusOneDayRaises()
    ensures NextDue(Date(9999, 12, 31), 1, "days").None?
  {
    MonthTotals(9999);
  }

  /** One month after December 9999 cannot be represented either. */
  lemma LastMonthPlusOneMonthRaises(day: int)
    requires 1 <= day <= 31
    ensures NextDue(Date(9999, 12, day), 1, "months").None?
  {
  }

  /**
   * `dt_util.as_utc` on a naive time: the time is read in the host's time
   * zone (`zoneOffset` seconds east of UTC) and moved to UTC, which may change
   * the date; None where `astimezone` raises because the date leaves the
   * representable range.
   */
  function AsUtc(t: DateTime, zoneOffset: int): (r: Option<DateTime>)
    requires ValidDateTime(t)
    ensures r.Some? <==> 1 <= Ordinal(t.date) + (t.seconds - zoneOffset) / 86400 <= MaxOrdinal
    ensures r.Some? ==> ValidDateTime(r.value) && r.value.offset == Some(0)
    ensures r.Some? ==> Ordinal(r.value.date) * 86400 + r.value.seconds == Ordinal(t.date) * 86400 + t.seconds - zoneOffset
  {
    var total := t.seconds - zoneOffset;
    match AddTimedelta(t.date, total / 86400)
    case None => None
    case Some(d) => Some(DateTime(d, total % 86400, Some(0)))
  }

  /** With the host zone at UTC a naive time keeps its date and time and only gains the offset. */
  lemma NaiveTimeInUtcZone(t: DateTime)
    requires ValidDateTime(t)
    ensures AsUtc(t, 0) == Some(t.(offset := Some(0)))
  {
    InRangeIffOrdinal(t.date);
    var r := AsUtc(t, 0).value;
    assert Ordinal(r.date) * 86400 + r.seconds == Ordinal(t.date) * 86400 + t.seconds;
    assert Ordinal(r.date) == Ordinal(t.date);
    OrdinalIsInjective(r.date, t.date);
  }

  /** Midnight of a date at an offset, as seconds on the ordinal time line in UTC. */
  function Midnight(d: Date, offset: int): int
    requires ValidDate(d)
  {
    Ordinal(d) * 86400 - offset
  }

  // ---- the binary sensor -------------------------------------------------------------------

  datatype Task = Task(lastPerformed: string, intervalValue: int, intervalType: string, tagId: Option<string>)

  /** An attribute value: text, a number, or a due date at an offset (the `isoformat` text is not modelled). */
  datatype AttrVal = AText(s: string) | AInt(i: int) | ADue(date: Date, offset: int)

  datatype SensorState = SensorState(isOn: bool, attributes: map<string, AttrVal>)

  function BaseAttributes(task: Task, nextDue: AttrVal): (a: map<string, AttrVal>)
    ensures "next_due" in a && a["next_due"] == nextDue
    ensures "last_performed" in a && "interval_value" in a && "interval_type" in a
    ensures "tag_id" in a <==> task.tagId.Some? && task.tagId.value != ""
  {
    var a := map["last_performed" := AText(task.lastPerformed), "interval_value" := AInt(task.intervalValue),
                 "interval_type" := AText(task.intervalType), "next_due" := nextDue];
    if task.tagId.Some? && task.tagId.value != "" then a["tag_id" := AText(task.tagId.value)] else a
  }

  /**
   * The last-performed time as parsed; a parse that does not name a calendar
   * date counts as unparsable, as it does for `dt_util.parse_datetime`.
   */
  function LastPerformed(task: Task, parse: string -> Option<DateTime>): (r: Option<DateTime>)
    ensures r.Some? ==> ValidDateTime(r.value) && parse(task.lastPerformed) == r
    ensures r.None? ==> parse(task.lastPerformed).None? || !ValidDateTime(parse(task.lastPerformed).value)
  {
    var p := parse(task.lastPerformed);
    if p.Some? && ValidDateTime(p.value) then p else None
  }

  /** The last-performed time in UTC where it was naive: None where `as_utc` raises. */
  function LastInUtc(t: DateTime, zoneOffset: int): (r: Option<DateTime>)
    requires ValidDateTime(t)
    ensures t.offset.Some? ==> r == Some(t)
    ensures t.offset.None? ==> r == AsUtc(t, zoneOffset)
    ensures r.Some? ==> ValidDateTime(r.value) && r.value.offset.Some?
  {
    if t.offset.None? then AsUtc(t, zoneOffset) else Some(t)
  }

  /**
   * `_update_state`. `parse` is `dt_util.parse_datetime` (None where the text
   * is not a time); `today` and `nowOffset` are the host's current date and
   * offset; `zoneOffset` is the host's time zone for naive times. None is the
   * step raising OverflowError or ValueError, which leaves the sensor as it was.
   */
  function UpdateStep(task: Task, parse: string -> Option<DateTime>, today: Date, nowOffset: int, zoneOffset: int)
    : (s: Option<SensorState>)
    requires InRange(today)
    ensures s.Some? ==> "next_due" in s.value.attributes
    ensures s.Some? ==> ("tag_id" in s.value.attributes <==> task.tagId.Some? && task.tagId.value != "")
    ensures LastPerformed(task, parse).None? ==> s.Some? && s.value.isOn && s.value.attributes["next_due"] == AText("unknown")
    ensures LastPerformed(task, parse).Some? ==>
              var t := LastPerformed(task, parse).value;
              (LastInUtc(t, zoneOffset).None? ==> s.None?) &&
              (LastInUtc(t, zoneOffset).Some? ==>
                 var last := LastInUtc(t, zoneOffset).value;
                 var due := NextDue(last.date, task.intervalValue, task.intervalType);
                 (s.Some? <==> due.Some?) &&
                 (s.Some? ==> s.value.attributes["next_due"] == ADue(due.value, last.offset.value) &&
                              (s.value.isOn <==> Midnight(today, nowOffset) >= Midnight(due.value, last.offset.value))))
  {
    var parsed := LastPerformed(task, parse);
    if parsed.None? then Some(SensorState(true, BaseAttributes(task, AText("unknown"))))
    else
      match LastInUtc(parsed.value, zoneOffset)
      case None => None
      case Some(last) =>
        match NextDue(last.date, task.intervalValue, task.intervalType)
        case None => None
        case Some(due) =>
          Some(SensorState(Midnight(today, nowOffset) >= Midnight(due, last.offset.value),
                           BaseAttributes(task, ADue(due, last.offset.value))))
  }

  /** Performed today with a zero interval, in the host's own offset: the maintenance task is due. */
  lemma DueTheDayItWasDone(task: Task, parse: string -> Option<DateTime>, today: Date, offset: int, zoneOffset: int)
    requires InRange(today)
    requires task.intervalValue == 0
    requires parse(task.lastPerformed) == Some(DateTime(today, 0, Some(offset)))
    ensures UpdateStep(task, parse, today, offset, zoneOffset).Some?
    ensures UpdateStep(task, parse, today, offset, zoneOffset).value.isOn
  {
    var t := DateTime(today, 0, Some(offset));
    assert ValidDateTime(t);
    assert LastPerformed(task, parse) == Some(t);
    ZeroIntervalIsDueAtOnce(today, task.intervalType);
  }

  /** A task performed on 9999-12-31 with a one-day interval cannot be updated: the step raises. */
  lemma UpdateRaisesPastTheLastDate(task: Task, parse: string -> Option<DateTime>, today: Date, nowOffset: int,
                                    zoneOffset: int, offset: int)
    requires InRange(today)
    requires task.intervalValue == 1 && task.intervalType == "days"
    requires parse(task.lastPerformed) == Some(DateTime(Date(9999, 12, 31), 0, Some(offset)))
    ensures UpdateStep(task, parse, today, nowOffset, zoneOffset).None?
  {
    var t := DateTime(Date(9999, 12, 31), 0, Some(offset));
    assert ValidDateTime(t);
    assert LastPerformed(task, parse) == Some(t);
    LastDatePlusOneDayRaises();
  }

  /**
   * With an interval of n days a task is due from day n on and not before; the
   * due date exists whenever today has reached it (same offset).
   */
  lemma DueExactlyFromTheDueDate(last: Date, n: int, today: Date, offset: int)
    requires InRange(last) && InRange(today) && n >= 0
    ensures Ordinal(today) >= Ordinal(last) + n ==> NextDue(last, n, "days").Some?
    ensures NextDue(last, n, "days").Some? ==>
              (Midnight(today, offset) >= Midnight(NextDue(last, n, "days").value, offset) <==>
               Ordinal(today) >= Ordinal(last) + n)
  {
    InRangeIffOrdinal(last);
    InRangeIffOrdinal(today);
  }

  class MaintenanceSensor {
    const task: Task
    var isOn: bool
    var attributes: map<string, AttrVal>

    /** The object `__init__` builds once its first update step has succeeded. */
    constructor(task: Task, parse: string -> Option<DateTime>, today: Date, nowOffset: int, zoneOffset: int)
      requires InRange(today)
      requires UpdateStep(task, parse, today, nowOffset, zoneOffset).Some?
      ensures this.task == task
      ensures SensorState(isOn, attributes) == UpdateStep(task, parse, today, nowOffset, zoneOffset).value
    {
      this.task := task;
      var s := UpdateStep(task, parse, today, nowOffset, zoneOffset).value;
      isOn := s.isOn;
      attributes := s.attributes;
    }

    /** `__init__`: no sensor when its first update step raises. */
    static method Create(task: Task, parse: string -> Option<DateTime>, today: Date, nowOffset: int, zoneOffset: int)
      returns (sensor: Option<MaintenanceSensor>)
      requires InRange(today)
      ensures sensor.None? <==> UpdateStep(task, parse, today, nowOffset, zoneOffset).None?
      ensures sensor.Some? ==> fresh(sensor.value) && sensor.value.task == task &&
                               SensorState(sensor.value.isOn, sensor.value.attributes) ==
                               UpdateStep(task, parse, today, nowOffset, zoneOffset).value
    {
      if UpdateStep(task, parse, today, nowOffset, zoneOffset).None? {
        return None;
      }
      var s := new MaintenanceSensor(task, parse, today, nowOffset, zoneOffset);
      return Some(s);
    }

    /** `_update_state` / `async_update`; `raised` is the step raising, which leaves the state as it was. */
    method Update(parse: string -> Option<DateTime>, today: Date, nowOffset: int, zoneOffset: int)
      returns (raised: bool)
      requires InRange(today)
      modifies this
      ensures raised <==> UpdateStep(task, parse, today, nowOffset, zoneOffset).None?
      ensures raised ==> isOn == old(isOn) && attributes == old(attributes)
      ensures !raised ==> SensorState(isOn, attributes) == UpdateStep(task, parse, today, nowOffset, zoneOffset).value
    {
      var parsed := LastPerformed(task, parse);
      if parsed.None? {
        isOn := true;
        attributes := BaseAttributes(task, AText("unknown"));
        return false;
      }
      var last := parsed.value;
      if last.offset.None? {
        var utc := AsUtc(last, zoneOffset);
        if utc.None? {
          return true;
        }
        last := utc.value;
      }
      var due := NextDue(last.date, task.intervalValue, task.intervalType);
      if due.None? {
        return true;
      }
      isOn := Midnight(today, nowOffset) >= Midnight(due.value, last.offset.value);
      attributes := BaseAttributes(task, ADue(due.value, last.offset.value));
      return false;
    }
  }
}
