// Microsoft 365 calendar: the calendar entity — events built for Home
// Assistant, the sorted and truncated data attribute, and the guarded edit
// operations (calendar_integration.py).

module Ms365Calendar {
  import opened Common
  import opened Ms365Events

  const Domain := "ms365_calendar"

  /** An entity may edit exactly when updates are enabled and authorised for the account and the calendar allows edits. */
  function UpdateSupported(enableUpdate: bool, readWriteAuthorised: bool, canEdit: bool): (b: bool)
    ensures b <==> enableUpdate && readWriteAuthorised && canEdit
  {
    (enableUpdate && readWriteAuthorised) && canEdit
  }

  /** `unique_id`: calendar id, account name and device id, joined by "_". */
  function UniqueId(calendarId: string, entityName: string, deviceId: string): (id: string)
    ensures HasPrefix(id, calendarId + "_") && HasSuffix(id, "_" + deviceId)
  {
    var id := calendarId + "_" + entityName + "_" + deviceId;
    assert id[..|calendarId| + 1] == calendarId + "_";
    assert id[|id| - |deviceId| - 1..] == "_" + deviceId;
    id
  }

  // ---- building events ------------------------------------------------------------------

  /** Home Assistant's calendar event, as far as this model follows it. */
  datatype CalendarEvent = CalendarEvent(start: When, end: When, summary: string, uid: string, recurrenceId: Option<string>)

  /** `_build_calendar_event`: the recurrence id is the series master's id when there is one. */
  function CalendarEventOf(v: Event): (c: CalendarEvent)
    ensures c.uid == v.objectId && c.summary == v.subject && c.start == v.start && c.end == v.end
    ensures c.recurrenceId.Some? <==> v.seriesMasterId.Some? && v.seriesMasterId.value != ""
    ensures c.recurrenceId.Some? ==> c.recurrenceId == v.seriesMasterId
  {
    var id := if v.seriesMasterId.Some? && v.seriesMasterId.value != "" then v.seriesMasterId else None;
    CalendarEvent(v.start, v.end, v.subject, v.objectId, id)
  }

  /** The events built from `results`; `valid` says which builds do not raise. */
  function Built(results: seq<Event>, valid: Event -> bool): (r: seq<CalendarEvent>)
    ensures |r| <= |results|
    ensures forall c :: c in r <==> exists i :: 0 <= i < |results| && valid(results[i]) && c == CalendarEventOf(results[i])
  {
    if |results| == 0 then []
    else
      var prefix := results[..|results| - 1];
      var last := results[|results| - 1];
      assert forall i :: 0 <= i < |prefix| ==> prefix[i] == results[i];
      if valid(last) then Built(prefix, valid) + [CalendarEventOf(last)] else Built(prefix, valid)
  }

  /** Building keeps the order: the events of a list's two halves come out one after the other. */
  lemma {:induction false} BuiltKeepsOrder(a: seq<Event>, b: seq<Event>, valid: Event -> bool)
    ensures Built(a + b, valid) == Built(a, valid) + Built(b, valid)
    decreases |b|
  {
    if |b| > 0 {
      var b' := b[..|b| - 1];
      assert (a + b)[..|a + b| - 1] == a + b';
      BuiltKeepsOrder(a, b', valid);
    } else {
      assert a + b == a;
    }
  }

  /** `_build_calendar_events`: an event whose build raises is logged and skipped. */
  method BuildCalendarEvents(results: seq<Event>, valid: Event -> bool) returns (events: seq<CalendarEvent>)
    ensures events == Built(results, valid)
  {
    events := [];
    var i := 0;
    while i < |results|
      invariant 0 <= i <= |results|
      invariant events == Built(results[..i], valid)
    {
      assert results[..i + 1][..i] == results[..i];
      if valid(results[i]) {
        events := events + [CalendarEventOf(results[i])];
      }
      i := i + 1;
    }
    assert results[..|results|] == results;
  }

  // ---- the data attribute -------------------------------------------------------------------

  /** The calendar date a start shows in its own zone (`date()` of a datetime, or the date itself), as a day number. */
  function WallDay(w: When): int
  {
    match w
    case OnDay(d) => d
    case At(wall, _) => wall / SecondsPerDay
  }

  /**
   * `start_sort`: the start of an event, moved back to the start of its day
   * when the event is flagged all-day. `dt_util.start_of_local_day` takes the
   * start's own date, without converting it first, and attaches the host zone.
   */
  function StartSort(e: Event, zoneOffset: int): (k: int)
    ensures !e.isAllDay ==> k == ToUtc(e.start, zoneOffset)
    ensures e.isAllDay ==> (k + zoneOffset) % SecondsPerDay == 0 && (k + zoneOffset) / SecondsPerDay == WallDay(e.start)
    ensures e.isAllDay && (e.start.OnDay? || e.start.offset.GetOr(zoneOffset) == zoneOffset) ==>
              k <= ToUtc(e.start, zoneOffset) < k + SecondsPerDay
    ensures e.isAllDay && e.start.OnDay? ==> k == ToUtc(e.start, zoneOffset)
  {
    if e.isAllDay then WallDay(e.start) * SecondsPerDay - zoneOffset else ToUtc(e.start, zoneOffset)
  }

  /**
   * An all-day event whose start is given in a zone ahead of the host's is
   * keyed by its own date: with a UTC host, one starting at 01:00+03:00 on day
   * `d` (22:00 UTC on day `d - 1`) is keyed at midnight of day `d`, and so
   * sorts after a timed event at 12:00 UTC on day `d - 1`.
   */
  lemma AwareAllDayKeepsItsOwnDate(d: int)
    ensures var allDay := Event("a", "", At(d * SecondsPerDay + 3600, Some(10800)), OnDay(d + 1), true, None);
            var timed := Event("t", "", At((d - 1) * SecondsPerDay + 43200, Some(0)), At((d - 1) * SecondsPerDay + 46800, Some(0)), false, None);
            ToUtc(allDay.start, 0) < d * SecondsPerDay == StartSort(allDay, 0) &&
            StartSort(timed, 0) < StartSort(allDay, 0)
  {
    var wall := d * SecondsPerDay + 3600;
    assert wall / SecondsPerDay == d by {
      assert d * SecondsPerDay <= wall < (d + 1) * SecondsPerDay;
    }
  }

  /** Inserts `e` before the first event whose key is not smaller, which keeps equal keys in order. */
  function Insert(e: Event, s: seq<Event>, zoneOffset: int): (r: seq<Event>)
    ensures multiset(r) == multiset(s) + multiset{e}
    ensures |r| == |s| + 1
  {
    if |s| == 0 || StartSort(e, zoneOffset) <= StartSort(s[0], zoneOffset) then [e] + s
    else
      var rest := Insert(e, s[1..], zoneOffset);
      assert s == [s[0]] + s[1..];
      [s[0]] + rest
  }

  /** `events.sort(key=start_sort)`: a stable sort. */
  function SortEvents(events: seq<Event>, zoneOffset: int): (r: seq<Event>)
    ensures multiset(r) == multiset(events)
    ensures |r| == |events|
  {
    if |events| == 0 then []
    else
      assert events == [events[0]] + events[1..];
      Insert(events[0], SortEvents(events[1..], zoneOffset), zoneOffset)
  }

  predicate SortedByStart(s: seq<Event>, zoneOffset: int)
  {
    forall i, j :: 0 <= i < j < |s| ==> StartSort(s[i], zoneOffset) <= StartSort(s[j], zoneOffset)
  }

  lemma {:induction false} InsertKeepsSorted(e: Event, s: seq<Event>, zoneOffset: int)
    requires SortedByStart(s, zoneOffset)
    ensures SortedByStart(Insert(e, s, zoneOffset), zoneOffset)
    decreases |s|
  {
    if |s| > 0 && StartSort(e, zoneOffset) > StartSort(s[0], zoneOffset) {
      var rest := Insert(e, s[1..], zoneOffset);
      InsertKeepsSorted(e, s[1..], zoneOffset);
      InsertKeepsBound(e, s[1..], StartSort(s[0], zoneOffset), zoneOffset);
      var r := Insert(e, s, zoneOffset);
      assert r == [s[0]] + rest;
      forall i, j | 0 <= i < j < |r|
        ensures StartSort(r[i], zoneOffset) <= StartSort(r[j], zoneOffset)
      {
        if i > 0 {
          assert r[i] == rest[i - 1] && r[j] == rest[j - 1];
        } else {
          assert r[j] == rest[j - 1];
        }
      }
    }
  }

  /** Inserting keeps a lower bound on the keys. */
  lemma {:induction false} InsertKeepsBound(e: Event, s: seq<Event>, bound: int, zoneOffset: int)
    requires StartSort(e, zoneOffset) >= bound
    requires forall i :: 0 <= i < |s| ==> StartSort(s[i], zoneOffset) >= bound
    ensures forall i :: 0 <= i < |s| + 1 ==> StartSort(Insert(e, s, zoneOffset)[i], zoneOffset) >= bound
    decreases |s|
  {
    if |s| > 0 && StartSort(e, zoneOffset) > StartSort(s[0], zoneOffset) {
      InsertKeepsBound(e, s[1..], bound, zoneOffset);
      var r := Insert(e, s, zoneOffset);
      assert r == [s[0]] + Insert(e, s[1..], zoneOffset);
      forall i | 1 <= i < |s| + 1
        ensures StartSort(r[i], zoneOffset) >= bound
      {
        assert r[i] == Insert(e, s[1..], zoneOffset)[i - 1];
      }
    }
  }

  lemma {:induction false} SortedIsSorted(events: seq<Event>, zoneOffset: int)
    ensures SortedByStart(SortEvents(events, zoneOffset), zoneOffset)
    decreases |events|
  {
    if |events| > 0 {
      SortedIsSorted(events[1..], zoneOffset);
      InsertKeepsSorted(events[0], SortEvents(events[1..], zoneOffset), zoneOffset);
    }
  }

  /** The events with a given key, in order. */
  function WithKey(s: seq<Event>, key: int, zoneOffset: int): seq<Event>
  {
    if |s| == 0 then []
    else (if StartSort(s[0], zoneOffset) == key then [s[0]] else []) + WithKey(s[1..], key, zoneOffset)
  }

  /** Keying a sequence that starts with one event. */
  lemma WithKeyCons(x: Event, t: seq<Event>, key: int, zoneOffset: int)
    ensures WithKey([x] + t, key, zoneOffset) == (if StartSort(x, zoneOffset) == key then [x] else []) + WithKey(t, key, zoneOffset)
  {
    assert ([x] + t)[0] == x && ([x] + t)[1..] == t;
  }

  lemma {:induction false} InsertIsStable(e: Event, s: seq<Event>, key: int, zoneOffset: int)
    ensures WithKey(Insert(e, s, zoneOffset), key, zoneOffset) ==
            (if StartSort(e, zoneOffset) == key then [e] else []) + WithKey(s, key, zoneOffset)
    decreases |s|
  {
    var mine := if StartSort(e, zoneOffset) == key then [e] else [];
    if |s| > 0 && StartSort(e, zoneOffset) > StartSort(s[0], zoneOffset) {
      var head := if StartSort(s[0], zoneOffset) == key then [s[0]] else [];
      var ins, tail := Insert(e, s[1..], zoneOffset), WithKey(s[1..], key, zoneOffset);
      assert Insert(e, s, zoneOffset) == [s[0]] + ins;
      InsertIsStable(e, s[1..], key, zoneOffset);
      WithKeyCons(s[0], ins, key, zoneOffset);
      assert WithKey(s, key, zoneOffset) == head + tail;
      if mine == [] {
        assert mine + (head + tail) == head + tail;
        assert mine + tail == tail;
      } else {
        assert head == [];
        assert head + (mine + tail) == mine + tail;
        assert head + tail == tail;
      }
    } else {
      assert Insert(e, s, zoneOffset) == [e] + s;
      WithKeyCons(e, s, key, zoneOffset);
    }
  }

  /** The sort is stable: the events sharing a start key keep their relative order. */
  lemma {:induction false} SortIsStable(events: seq<Event>, key: int, zoneOffset: int)
    ensures WithKey(SortEvents(events, zoneOffset), key, zoneOffset) == WithKey(events, key, zoneOffset)
    decreases |events|
  {
    if |events| > 0 {
      SortIsStable(events[1..], key, zoneOffset);
      InsertIsStable(events[0], SortEvents(events[1..], zoneOffset), key, zoneOffset);
    }
  }

  /** The events overlapping the attribute's range, both ends included. */
  function InRange(events: seq<Event>, rangeStart: int, rangeEnd: int, zoneOffset: int): (r: seq<Event>)
    ensures forall e :: e in r <==> e in events && ToUtc(e.end, zoneOffset) >= rangeStart && ToUtc(e.start, zoneOffset) <= rangeEnd
  {
    if |events| == 0 then []
    else
      var e := events[0];
      assert events == [e] + events[1..];
      (if ToUtc(e.end, zoneOffset) >= rangeStart && ToUtc(e.start, zoneOffset) <= rangeEnd then [e] else [])
        + InRange(events[1..], rangeStart, rangeEnd, zoneOffset)
  }

  /** `data[: max_results]`, the whole list when no maximum is set. */
  function Truncated(s: seq<Event>, maxResults: Option<nat>): (r: seq<Event>)
    ensures maxResults.None? ==> r == s
    ensures maxResults.Some? ==> |r| == (if maxResults.value < |s| then maxResults.value else |s|)
    ensures HasPrefixOf(s, r)
  {
    if maxResults.None? || maxResults.value >= |s| then s else s[..maxResults.value]
  }

  predicate HasPrefixOf(s: seq<Event>, p: seq<Event>)
  {
    |p| <= |s| && s[..|p|] == p
  }

  /** The data attribute for a refresh; None when the coordinator has no data, so the attribute is kept. */
  function DataAttribute(data: Option<seq<Event>>, rangeStart: int, rangeEnd: int, maxResults: Option<nat>,
                         zoneOffset: int): Option<seq<Event>>
  {
    if data.None? then None
    else Some(Truncated(SortEvents(InRange(data.value, rangeStart, rangeEnd, zoneOffset), zoneOffset), maxResults))
  }

  /** The attribute holds at most `max_results` events of the range, each overlapping it, by start. */
  lemma DataAttributeIsSortedRangeSlice(data: seq<Event>, rangeStart: int, rangeEnd: int, maxResults: Option<nat>,
                                        zoneOffset: int)
    ensures var a := DataAttribute(Some(data), rangeStart, rangeEnd, maxResults, zoneOffset).value;
            SortedByStart(a, zoneOffset) &&
            (maxResults.Some? ==> |a| <= maxResults.value) &&
            (forall e :: e in a ==> e in data && ToUtc(e.end, zoneOffset) >= rangeStart && ToUtc(e.start, zoneOffset) <= rangeEnd)
  {
    var inRange := InRange(data, rangeStart, rangeEnd, zoneOffset);
    var sorted := SortEvents(inRange, zoneOffset);
    SortedIsSorted(inRange, zoneOffset);
    var a := Truncated(sorted, maxResults);
    forall e | e in a
      ensures e in inRange
    {
      var k :| 0 <= k < |a| && a[k] == e;
      assert sorted[k] == e;
      assert e in multiset(sorted);
    }
  }

  // ---- edits --------------------------------------------------------------------------------

  datatype EditError = MissingPermission | NotEditable | GroupCalendar

  /** What an edit request does. */
  datatype EditResult =
    | Rejected(error: EditError)
    | Created
    | Patched(target: Option<string>, eventType: string)
    | Deleted(target: Option<string>, eventType: string)
    | Responded(eventId: string)

  /** The Home Assistant event fired after an edit. */
  function FiredEventName(eventType: string): (name: string)
    ensures HasPrefix(name, Domain + "_") && name[|Domain| + 1..] == eventType
  {
    Domain + "_" + eventType
  }

  /** `_validate_calendar_permissions`: the read-write permission first, then the entity's own flag. */
  function Validate(hasPermission: bool, updateSupported: bool): (e: Option<EditError>)
    ensures e.None? <==> hasPermission && updateSupported
    ensures !hasPermission ==> e == Some(MissingPermission)
  {
    if !hasPermission then Some(MissingPermission)
    else if !updateSupported then Some(NotEditable)
    else None
  }

  function CreateEvent(hasPermission: bool, updateSupported: bool): (r: EditResult)
    ensures r == Created <==> hasPermission && updateSupported
  {
    var e := Validate(hasPermission, updateSupported);
    if e.Some? then Rejected(e.value) else Created
  }

  /** `async_modify_calendar_event`: a whole series by its recurrence id when a recurrence range is given. */
  function ModifyEvent(hasPermission: bool, updateSupported: bool, groupCalendar: bool, eventId: string,
                       recurrenceId: Option<string>, recurrenceRange: Option<string>): (r: EditResult)
    ensures r.Patched? <==> hasPermission && updateSupported && !groupCalendar
    ensures r.Patched? && recurrenceRange.Some? && recurrenceRange.value != "" ==>
              r.target == recurrenceId && r.eventType == "modify_calendar_recurrences"
    ensures r.Patched? && !(recurrenceRange.Some? && recurrenceRange.value != "") ==>
              r.target == Some(eventId) && r.eventType == "modify_calendar_event"
  {
    var e := Validate(hasPermission, updateSupported);
    if e.Some? then Rejected(e.value)
    else if groupCalendar then Rejected(GroupCalendar)
    else if recurrenceRange.Some? && recurrenceRange.value != "" then Patched(recurrenceId, "modify_calendar_recurrences")
    else Patched(Some(eventId), "modify_calendar_event")
  }

  /** `async_remove_calendar_event`, routed like a modification. */
  function RemoveEvent(hasPermission: bool, updateSupported: bool, groupCalendar: bool, eventId: string,
                       recurrenceId: Option<string>, recurrenceRange: Option<string>): (r: EditResult)
    ensures r.Deleted? <==> hasPermission && updateSupported && !groupCalendar
    ensures r.Deleted? && recurrenceRange.Some? && recurrenceRange.value != "" ==>
              r.target == recurrenceId && r.eventType == "remove_calendar_recurrences"
    ensures r.Deleted? && !(recurrenceRange.Some? && recurrenceRange.value != "") ==>
              r.target == Some(eventId) && r.eventType == "remove_calendar_event"
  {
    var e := Validate(hasPermission, updateSupported);
    if e.Some? then Rejected(e.value)
    else if groupCalendar then Rejected(GroupCalendar)
    else if recurrenceRange.Some? && recurrenceRange.value != "" then Deleted(recurrenceId, "remove_calendar_recurrences")
    else Deleted(Some(eventId), "remove_calendar_event")
  }

  function RespondEvent(hasPermission: bool, updateSupported: bool, groupCalendar: bool, eventId: string): (r: EditResult)
    ensures r == Responded(eventId) <==> hasPermission && updateSupported && !groupCalendar
  {
    var e := Validate(hasPermission, updateSupported);
    if e.Some? then Rejected(e.value)
    else if groupCalendar then Rejected(GroupCalendar)
    else Responded(eventId)
  }

  /** A calendar that does not support updates rejects every edit, whatever is asked. */
  lemma ReadOnlyCalendarRejectsEdits(hasPermission: bool, groupCalendar: bool, eventId: string,
                                     recurrenceId: Option<string>, recurrenceRange: Option<string>)
    ensures CreateEvent(hasPermission, false).Rejected?
    ensures ModifyEvent(hasPermission, false, groupCalendar, eventId, recurrenceId, recurrenceRange).Rejected?
    ensures RemoveEvent(hasPermission, false, groupCalendar, eventId, recurrenceId, recurrenceRange).Rejected?
    ensures RespondEvent(hasPermission, false, groupCalendar, eventId).Rejected?
  {
  }

  class CalendarEntity {
    const updateSupported: bool
    const maxResults: Option<nat>
    /** `_data_attribute`. */
    var dataAttribute: seq<Event>

    constructor(updateSupported: bool, maxResults: Option<nat>)
      ensures this.updateSupported == updateSupported && this.maxResults == maxResults
      ensures dataAttribute == []
    {
      this.updateSupported := updateSupported;
      this.maxResults := maxResults;
      dataAttribute := [];
    }

    /** `_build_extra_attributes`: nothing changes while the coordinator has no data. */
    method BuildExtraAttributes(data: Option<seq<Event>>, rangeStart: int, rangeEnd: int, zoneOffset: int)
      modifies this
      ensures data.None? ==> dataAttribute == old(dataAttribute)
      ensures data.Some? ==> dataAttribute == DataAttribute(data, rangeStart, rangeEnd, maxResults, zoneOffset).value
    {
      if data.Some? {
        var events := InRange(data.value, rangeStart, rangeEnd, zoneOffset);
        events := SortEvents(events, zoneOffset);
        dataAttribute := Truncated(events, maxResults);
      }
    }
  }
}
