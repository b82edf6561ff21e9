// Eskom load-shedding: the local events and local schedule calendars
// (calendar.py).

module EskomCalendar {
  import opened Common

  /** Seconds since the epoch. */
  type Instant = int

  const SecondsPerDay := 86400

  /** A computation that either raises or gives a value. */
  datatype Outcome<T> = Raises | Ok(value: T)

  datatype CalEvent = CalEvent(start: Instant, end: Instant, summary: string)

  /** An event as the area-information reply lists it; times are ISO 8601 text. */
  datatype ApiEvent = ApiEvent(start: string, end: string, note: string)

  /** One day of the schedule: its date text and, per stage, the time ranges. */
  datatype Day = Day(date: string, stages: seq<seq<string>>)

  // ---- the events calendar ------------------------------------------------------------

  /**
   * The events calendar's `async_get_events`: every listed event in order,
   * whatever the requested window. `parse` reads the timestamp text and
   * answers None where `strptime` raises.
   */
  function ApiEventsFrom(events: seq<ApiEvent>, parse: string -> Option<Instant>): (r: Outcome<seq<CalEvent>>)
    ensures r.Ok? <==> forall i :: 0 <= i < |events| ==> parse(events[i].start).Some? && parse(events[i].end).Some?
    ensures r.Ok? ==> |r.value| == |events|
    ensures r.Ok? ==> forall i :: 0 <= i < |events| ==>
                        r.value[i] == CalEvent(parse(events[i].start).value, parse(events[i].end).value, events[i].note)
  {
    if |events| == 0 then Ok([])
    else
      var s := parse(events[0].start);
      var e := parse(events[0].end);
      var rest := ApiEventsFrom(events[1..], parse);
      if s.None? || e.None? || rest.Raises? then
        (if s.Some? && e.Some? then
           var k :| 0 <= k < |events[1..]| && !(parse(events[1..][k].start).Some? && parse(events[1..][k].end).Some?);
           assert events[k + 1] == events[1..][k];
           Raises
         else Raises)
      else
        var r := [CalEvent(s.value, e.value, events[0].note)] + rest.value;
        assert forall i :: 1 <= i < |events| ==> events[i] == events[1..][i - 1];
        Ok(r)
  }

  /** The `event` property: the first listed event, or None when there are none. */
  function NextEvent(events: seq<ApiEvent>, parse: string -> Option<Instant>): (r: Outcome<Option<CalEvent>>)
    ensures |events| == 0 ==> r == Ok(None)
  {
    if |events| == 0 then Ok(None)
    else
      var s := parse(events[0].start);
      var e := parse(events[0].end);
      if s.None? || e.None? then Raises else Ok(Some(CalEvent(s.value, e.value, events[0].note)))
  }

  /** The current event is the first of the calendar's events. */
  lemma NextEventIsFirstOfCalendar(events: seq<ApiEvent>, parse: string -> Option<Instant>)
    requires |events| > 0 && ApiEventsFrom(events, parse).Ok?
    ensures NextEvent(events, parse) == Ok(Some(ApiEventsFrom(events, parse).value[0]))
  {
  }

  // ---- the schedule calendar ------------------------------------------------------------

  /** An "HH:MM" token as hours and minutes. */
  datatype Clock = Clock(hours: nat, minutes: nat)

  predicate IsClockAt(s: string)
  {
    |s| >= 5 && IsDigit(s[0]) && IsDigit(s[1]) && s[2] == ':' && IsDigit(s[3]) && IsDigit(s[4])
  }

  /** `re.findall(r"\d\d:\d\d", s)`: the non-overlapping tokens, scanning left to right. */
  function ClockTokens(s: string): (r: seq<Clock>)
    ensures forall i :: 0 <= i < |r| ==> r[i].hours <= 99 && r[i].minutes <= 99
    decreases |s|
  {
    if |s| == 0 then []
    else if IsClockAt(s) then
      [Clock(DigitValue(s[0]) * 10 + DigitValue(s[1]), DigitValue(s[3]) * 10 + DigitValue(s[4]))] + ClockTokens(s[5..])
    else ClockTokens(s[1..])
  }

  /** A slot that runs past midnight yields its two times in order. */
  lemma MidnightSlotTokens()
    ensures ClockTokens("22:30-00:30") == [Clock(22, 30), Clock(0, 30)]
  {
    var end := "00:30";
    assert end[5..] == "";
    assert IsClockAt(end) && DigitValue('0') == 0 && DigitValue('3') == 3;
    assert ClockTokens(end) == [Clock(0, 30)];
    var tail := "-00:30";
    assert !IsClockAt(tail) && tail[1..] == end;
    assert ClockTokens(tail) == [Clock(0, 30)];
    var slot := "22:30-00:30";
    assert IsClockAt(slot) && slot[5..] == tail && DigitValue('2') == 2;
  }

  /** `%H:%M` accepts hours 0-23 and minutes 0-59. */
  predicate ValidClock(c: Clock)
  {
    c.hours <= 23 && c.minutes <= 59
  }

  function StageSummary(n: nat): (s: string)
    ensures HasPrefix(s, "Stage ") && s[6..] == NatToString(n + 1)
  {
    "Stage " + NatToString(n + 1)
  }

  /**
   * The event of one time range of stage `n` on a day. `dayStart` is the
   * instant the day's date begins at +02:00, or None where the date text does
   * not parse. Fewer than two tokens, or a token out of range, raises.
   */
  function RangeEvent(date: string, n: nat, range: string, dayStart: string -> Option<Instant>): (r: Outcome<CalEvent>)
    ensures r.Ok? ==> r.value.start <= r.value.end < r.value.start + SecondsPerDay
    ensures r.Ok? ==> r.value.summary == StageSummary(n)
    ensures r.Ok? <==> dayStart(date).Some? && |ClockTokens(range)| >= 2 &&
                       ValidClock(ClockTokens(range)[0]) && ValidClock(ClockTokens(range)[1])
  {
    var t := ClockTokens(range);
    if |t| < 2 || !ValidClock(t[0]) || !ValidClock(t[1]) || dayStart(date).None? then Raises
    else
      var start := dayStart(date).value + (t[0].hours * 60 + t[0].minutes) * 60;
      var end := dayStart(date).value + (t[1].hours * 60 + t[1].minutes) * 60;
      Ok(CalEvent(start, if end < start then end + SecondsPerDay else end, StageSummary(n)))
  }

  /** Concatenation of two outcomes; either raising raises. */
  function Then(a: Outcome<seq<CalEvent>>, b: Outcome<seq<CalEvent>>): Outcome<seq<CalEvent>>
  {
    if a.Raises? || b.Raises? then Raises else Ok(a.value + b.value)
  }

  function RangesFrom(date: string, n: nat, ranges: seq<string>, i: nat, dayStart: string -> Option<Instant>): Outcome<seq<CalEvent>>
    requires i <= |ranges|
    decreases |ranges| - i
  {
    if i == |ranges| then Ok([])
    else
      var e := RangeEvent(date, n, ranges[i], dayStart);
      if e.Raises? then Raises else Then(Ok([e.value]), RangesFrom(date, n, ranges, i + 1, dayStart))
  }

  function StagesFrom(day: Day, k: nat, dayStart: string -> Option<Instant>): Outcome<seq<CalEvent>>
    requires k <= |day.stages|
    decreases |day.stages| - k
  {
    if k == |day.stages| then Ok([])
    else Then(RangesFrom(day.date, k, day.stages[k], 0, dayStart), StagesFrom(day, k + 1, dayStart))
  }

  function DaysFrom(days: seq<Day>, j: nat, dayStart: string -> Option<Instant>): Outcome<seq<CalEvent>>
    requires j <= |days|
    decreases |days| - j
  {
    if j == |days| then Ok([])
    else Then(StagesFrom(days[j], 0, dayStart), DaysFrom(days, j + 1, dayStart))
  }

  /** The schedule calendar's events; a missing or empty schedule gives none. */
  function ScheduleEventsOf(schedule: Option<seq<Day>>, dayStart: string -> Option<Instant>): Outcome<seq<CalEvent>>
  {
    if schedule.None? then Ok([]) else DaysFrom(schedule.value, 0, dayStart)
  }

  lemma ThenUnit(a: Outcome<seq<CalEvent>>)
    ensures Then(Ok([]), a) == a
  {
    if a.Ok? {
      assert [] + a.value == a.value;
    }
  }

  lemma ThenAssoc(acc: seq<CalEvent>, a: Outcome<seq<CalEvent>>, b: Outcome<seq<CalEvent>>)
    ensures Then(Ok(acc), Then(a, b)) == Then(Then(Ok(acc), a), b)
  {
    if a.Ok? && b.Ok? {
      assert acc + (a.value + b.value) == (acc + a.value) + b.value;
    }
  }

  method RangeEvents(date: string, n: nat, ranges: seq<string>, dayStart: string -> Option<Instant>)
    returns (r: Outcome<seq<CalEvent>>)
    ensures r == RangesFrom(date, n, ranges, 0, dayStart)
  {
    var acc: seq<CalEvent> := [];
    ThenUnit(RangesFrom(date, n, ranges, 0, dayStart));
    var i := 0;
    while i < |ranges|
      invariant 0 <= i <= |ranges|
      invariant RangesFrom(date, n, ranges, 0, dayStart) == Then(Ok(acc), RangesFrom(date, n, ranges, i, dayStart))
    {
      var e := RangeEvent(date, n, ranges[i], dayStart);
      if e.Raises? {
        return Raises;
      }
      ThenAssoc(acc, Ok([e.value]), RangesFrom(date, n, ranges, i + 1, dayStart));
      acc := acc + [e.value];
      i := i + 1;
    }
    assert acc + [] == acc;
    return Ok(acc);
  }

  method DayEvents(day: Day, dayStart: string -> Option<Instant>) returns (r: Outcome<seq<CalEvent>>)
    ensures r == StagesFrom(day, 0, dayStart)
  {
    var acc: seq<CalEvent> := [];
    ThenUnit(StagesFrom(day, 0, dayStart));
    var k := 0;
    while k < |day.stages|
      invariant 0 <= k <= |day.stages|
      invariant StagesFrom(day, 0, dayStart) == Then(Ok(acc), StagesFrom(day, k, dayStart))
    {
      var es := RangeEvents(day.date, k, day.stages[k], dayStart);
      if es.Raises? {
        return Raises;
      }
      ThenAssoc(acc, es, StagesFrom(day, k + 1, dayStart));
      acc := acc + es.value;
      k := k + 1;
    }
    assert acc + [] == acc;
    return Ok(acc);
  }

  /** The schedule calendar's `async_get_events`: for each day, each stage, each time range, one event. */
  method ScheduleEvents(schedule: Option<seq<Day>>, dayStart: string -> Option<Instant>) returns (r: Outcome<seq<CalEvent>>)
    ensures r == ScheduleEventsOf(schedule, dayStart)
  {
    if schedule.None? {
      return Ok([]);
    }
    var days := schedule.value;
    var acc: seq<CalEvent> := [];
    ThenUnit(DaysFrom(days, 0, dayStart));
    var j := 0;
    while j < |days|
      invariant 0 <= j <= |days|
      invariant DaysFrom(days, 0, dayStart) == Then(Ok(acc), DaysFrom(days, j, dayStart))
    {
      var es := DayEvents(days[j], dayStart);
      if es.Raises? {
        return Raises;
      }
      ThenAssoc(acc, es, DaysFrom(days, j + 1, dayStart));
      acc := acc + es.value;
      j := j + 1;
    }
    assert acc + [] == acc;
    return Ok(acc);
  }

  // ---- what the schedule yields -----------------------------------------------------------

  /** Every event ends no earlier than it starts and is named after a stage. */
  predicate WellFormed(es: seq<CalEvent>)
  {
    forall i :: 0 <= i < |es| ==> es[i].start <= es[i].end && HasPrefix(es[i].summary, "Stage ")
  }

  function SumLengths(xs: seq<seq<string>>, k: nat): nat
    requires k <= |xs|
    decreases |xs| - k
  {
    if k == |xs| then 0 else |xs[k]| + SumLengths(xs, k + 1)
  }

  function RangeCount(days: seq<Day>, j: nat): nat
    requires j <= |days|
    decreases |days| - j
  {
    if j == |days| then 0 else SumLengths(days[j].stages, 0) + RangeCount(days, j + 1)
  }

  /** One event per range of stage `n`, each named "Stage n+1" and well formed. */
  lemma {:induction false} RangesYield(date: string, n: nat, ranges: seq<string>, i: nat, dayStart: string -> Option<Instant>)
    requires i <= |ranges| && RangesFrom(date, n, ranges, i, dayStart).Ok?
    ensures var es := RangesFrom(date, n, ranges, i, dayStart).value;
            |es| == |ranges| - i && WellFormed(es) &&
            forall m :: 0 <= m < |es| ==> es[m].summary == StageSummary(n)
    decreases |ranges| - i
  {
    if i < |ranges| {
      RangesYield(date, n, ranges, i + 1, dayStart);
    }
  }

  lemma {:induction false} StagesYield(day: Day, k: nat, dayStart: string -> Option<Instant>)
    requires k <= |day.stages| && StagesFrom(day, k, dayStart).Ok?
    ensures var es := StagesFrom(day, k, dayStart).value;
            |es| == SumLengths(day.stages, k) && WellFormed(es)
    decreases |day.stages| - k
  {
    if k < |day.stages| {
      RangesYield(day.date, k, day.stages[k], 0, dayStart);
      StagesYield(day, k + 1, dayStart);
    }
  }

  /**
   * A schedule that does not raise yields exactly one event per time range
   * per stage per day, each ending no earlier than it starts.
   */
  lemma {:induction false} ScheduleYield(days: seq<Day>, j: nat, dayStart: string -> Option<Instant>)
    requires j <= |days| && DaysFrom(days, j, dayStart).Ok?
    ensures var es := DaysFrom(days, j, dayStart).value;
            |es| == RangeCount(days, j) && WellFormed(es)
    decreases |days| - j
  {
    if j < |days| {
      StagesYield(days[j], 0, dayStart);
      ScheduleYield(days, j + 1, dayStart);
    }
  }

  /** A one-slot day: the slot's event carries stage index + 1 and wraps past midnight. */
  lemma OneSlotDay(date: string, dayStart: string -> Option<Instant>)
    requires dayStart(date).Some?
    ensures var r := ScheduleEventsOf(Some([Day(date, [[], ["22:30-00:30"]])]), dayStart);
            var t0 := dayStart(date).value;
            r == Ok([CalEvent(t0 + 81000, t0 + 1800 + SecondsPerDay, "Stage 2")])
  {
    MidnightSlotEvent(date, dayStart);
    SecondStageOnlyDay(date, "22:30-00:30", dayStart);
  }

  /** The slot from 22:30 to 00:30 of the second stage list ends the next day and is named "Stage 2". */
  lemma MidnightSlotEvent(date: string, dayStart: string -> Option<Instant>)
    requires dayStart(date).Some?
    ensures var t0 := dayStart(date).value;
            RangeEvent(date, 1, "22:30-00:30", dayStart) == Ok(CalEvent(t0 + 81000, t0 + 1800 + SecondsPerDay, "Stage 2"))
  {
    var t0 := dayStart(date).value;
    var t := ClockTokens("22:30-00:30");
    MidnightSlotTokens();
    assert ValidClock(t[0]) && ValidClock(t[1]);
    var start := t0 + (t[0].hours * 60 + t[0].minutes) * 60;
    var end := t0 + (t[1].hours * 60 + t[1].minutes) * 60;
    assert start == t0 + 81000 && end == t0 + 1800 && end < start;
    assert NatToString(2) == [DigitChar(2)] == "2";
    assert StageSummary(1) == "Stage 2";
  }

  /** A day whose only slot is in its second stage list yields that slot's event alone. */
  lemma SecondStageOnlyDay(date: string, range: string, dayStart: string -> Option<Instant>)
    requires RangeEvent(date, 1, range, dayStart).Ok?
    ensures ScheduleEventsOf(Some([Day(date, [[], [range]])]), dayStart) == Ok([RangeEvent(date, 1, range, dayStart).value])
  {
    var day := Day(date, [[], [range]]);
    var e := RangeEvent(date, 1, range, dayStart).value;
    assert [e] + [] == [e];
    assert [] + [e] == [e];
    assert RangesFrom(date, 1, [range], 1, dayStart) == Ok([]);
    assert RangesFrom(date, 1, [range], 0, dayStart) == Ok([e]);
    assert RangesFrom(date, 0, [], 0, dayStart) == Ok([]);
    assert StagesFrom(day, 2, dayStart) == Ok([]);
    assert StagesFrom(day, 1, dayStart) == Ok([e]);
    assert StagesFrom(day, 0, dayStart) == Ok([e]);
    assert DaysFrom([day], 1, dayStart) == Ok([]);
  }
}
