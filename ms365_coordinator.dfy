// Microsoft 365 calendar: the sync coordinator, its synchronised window, the
// choice between cache and service, and the current event
// (coordinator_integration.py).

module Ms365Coordinator {
  import opened Common
  import opened Ms365Events

  const DefaultDaysBackward := -8
  const DefaultDaysForward := 8

  /** Days from now to the start of the synchronised window: the earlier of the entity's hours back and the configured days back. */
  function WindowStartDays(hoursBackward: int, daysBackward: int): (d: real)
    ensures d <= hoursBackward as real / 24.0 && d <= daysBackward as real
    ensures d == hoursBackward as real / 24.0 || d == daysBackward as real
  {
    var h := hoursBackward as real / 24.0;
    if h < daysBackward as real then h else daysBackward as real
  }

  /** Days from now to the end of the synchronised window: the later of the entity's hours ahead and the configured days ahead. */
  function WindowEndDays(hoursForward: int, daysForward: int): (d: real)
    ensures d >= hoursForward as real / 24.0 && d >= daysForward as real
    ensures d == hoursForward as real / 24.0 || d == daysForward as real
  {
    var h := hoursForward as real / 24.0;
    if h > daysForward as real then h else daysForward as real
  }

  /** With every default in place the window runs from eight days back to eight days ahead. */
  lemma DefaultWindow()
    ensures WindowStartDays(0, DefaultDaysBackward) == -8.0
    ensures WindowEndDays(24, DefaultDaysForward) == 8.0
  {
  }

  /** Where `async_get_events` takes its events from. */
  datatype Source = NotSynced | FromService | FromCache

  /** The service is asked exactly when the range leaves the synchronised window. */
  function SourceOf(synced: bool, start: int, end: int, syncMin: real, syncMax: real): (s: Source)
    ensures s == NotSynced <==> !synced
    ensures synced ==> (s == FromService <==> start as real < syncMin || end as real > syncMax)
    ensures synced && syncMin <= start as real && end as real <= syncMax ==> s == FromCache
  {
    if !synced then NotSynced
    else if start as real < syncMin || end as real > syncMax then FromService
    else FromCache
  }

  /** What a request for events produced. */
  datatype EventsResult = Raises | Events(events: seq<Event>)

  // ---- the current event --------------------------------------------------------------

  predicate Started(e: Event, now: int, zoneOffset: int)
  {
    now >= ToUtc(e.start, zoneOffset)
  }

  predicate Finished(e: Event, now: int, zoneOffset: int)
  {
    now >= ToUtc(e.end, zoneOffset)
  }

  /** The three kinds of candidate, in order of priority. */
  datatype Kind = InProgress | AllDay | Upcoming

  predicate IsKind(e: Event, k: Kind, now: int, zoneOffset: int)
  {
    match k
    case InProgress => !e.isAllDay && Started(e, now, zoneOffset) && !Finished(e, now, zoneOffset)
    case AllDay => e.isAllDay && !Finished(e, now, zoneOffset)
    case Upcoming => !e.isAllDay && !Started(e, now, zoneOffset) && !Finished(e, now, zoneOffset)
  }

  /** The first event of a kind. */
  function FirstOf(events: seq<Event>, k: Kind, now: int, zoneOffset: int): Option<Event>
  {
    if |events| == 0 then None
    else
      var first := FirstOf(events[..|events| - 1], k, now, zoneOffset);
      if first.Some? then first
      else if IsKind(events[|events| - 1], k, now, zoneOffset) then Some(events[|events| - 1])
      else None
  }

  /** The first event of a kind is the earliest listed event of that kind; there is none exactly when no event has it. */
  lemma {:induction false} FirstOfIsFirst(events: seq<Event>, k: Kind, now: int, zoneOffset: int)
    ensures var r := FirstOf(events, k, now, zoneOffset);
            (r.None? <==> forall i :: 0 <= i < |events| ==> !IsKind(events[i], k, now, zoneOffset)) &&
            (r.Some? ==> exists i :: 0 <= i < |events| && events[i] == r.value && IsKind(r.value, k, now, zoneOffset) &&
                                     forall j :: 0 <= j < i ==> !IsKind(events[j], k, now, zoneOffset))
  {
    if |events| > 0 {
      var prefix := events[..|events| - 1];
      FirstOfIsFirst(prefix, k, now, zoneOffset);
      assert forall i :: 0 <= i < |prefix| ==> prefix[i] == events[i];
      var first := FirstOf(prefix, k, now, zoneOffset);
      if first.Some? {
        var i :| 0 <= i < |prefix| && prefix[i] == first.value && IsKind(first.value, k, now, zoneOffset) &&
                 forall j :: 0 <= j < i ==> !IsKind(prefix[j], k, now, zoneOffset);
        assert events[i] == first.value;
      } else if IsKind(events[|events| - 1], k, now, zoneOffset) {
        assert forall j :: 0 <= j < |events| - 1 ==> !IsKind(events[j], k, now, zoneOffset);
      }
    }
  }

  /** Looking at one more event finds it only when no earlier event of the kind was found. */
  lemma FirstOfStep(events: seq<Event>, i: nat, k: Kind, now: int, zoneOffset: int)
    requires i < |events|
    ensures var first := FirstOf(events[..i], k, now, zoneOffset);
            FirstOf(events[..i + 1], k, now, zoneOffset) ==
              if first.Some? then first else if IsKind(events[i], k, now, zoneOffset) then Some(events[i]) else None
  {
    assert events[..i + 1][..i] == events[..i];
    assert events[..i + 1][i] == events[i];
  }

  /** The event shown as current: one in progress, else an all-day one, else an upcoming one. */
  function CurrentEventOf(events: seq<Event>, now: int, zoneOffset: int): Option<Event>
  {
    var started := FirstOf(events, InProgress, now, zoneOffset);
    var allDay := FirstOf(events, AllDay, now, zoneOffset);
    var upcoming := FirstOf(events, Upcoming, now, zoneOffset);
    if started.Some? then started else if allDay.Some? then allDay else upcoming
  }

  /** A finished event is never current, and a current event is one of the candidates. */
  lemma CurrentEventIsUnfinished(events: seq<Event>, now: int, zoneOffset: int)
    ensures var r := CurrentEventOf(events, now, zoneOffset);
            r.Some? ==> r.value in events && !Finished(r.value, now, zoneOffset)
  {
    var r := CurrentEventOf(events, now, zoneOffset);
    if r.Some? {
      var k := if FirstOf(events, InProgress, now, zoneOffset).Some? then InProgress
               else if FirstOf(events, AllDay, now, zoneOffset).Some? then AllDay else Upcoming;
      assert r == FirstOf(events, k, now, zoneOffset);
      FirstOfIsFirst(events, k, now, zoneOffset);
    }
  }

  /**
   * The priority: any event in progress beats every all-day event, which beats
   * every upcoming one; there is no current event only when no event is unfinished.
   */
  lemma CurrentEventPriority(events: seq<Event>, now: int, zoneOffset: int)
    ensures var r := CurrentEventOf(events, now, zoneOffset);
            ((exists i :: 0 <= i < |events| && IsKind(events[i], InProgress, now, zoneOffset)) ==>
               r.Some? && IsKind(r.value, InProgress, now, zoneOffset)) &&
            ((forall i :: 0 <= i < |events| ==> !IsKind(events[i], InProgress, now, zoneOffset)) &&
             (exists i :: 0 <= i < |events| && IsKind(events[i], AllDay, now, zoneOffset)) ==>
               r.Some? && IsKind(r.value, AllDay, now, zoneOffset)) &&
            (r.None? <==> forall i :: 0 <= i < |events| ==> Finished(events[i], now, zoneOffset))
  {
    var r := CurrentEventOf(events, now, zoneOffset);
    FirstOfIsFirst(events, InProgress, now, zoneOffset);
    FirstOfIsFirst(events, AllDay, now, zoneOffset);
    FirstOfIsFirst(events, Upcoming, now, zoneOffset);
    if r.None? {
      forall i | 0 <= i < |events|
        ensures Finished(events[i], now, zoneOffset)
      {
        assert !IsKind(events[i], InProgress, now, zoneOffset);
        assert !IsKind(events[i], AllDay, now, zoneOffset);
        assert !IsKind(events[i], Upcoming, now, zoneOffset);
      }
    } else {
      CurrentEventIsUnfinished(events, now, zoneOffset);
    }
  }

  class SyncCoordinator {
    /** The window's offsets from the time of a sync, in days. */
    const minDays: real
    const maxDays: real
    /** `_last_sync_min` / `_last_sync_max`, in seconds since the epoch. */
    var lastSyncMin: Option<real>
    var lastSyncMax: Option<real>
    /** The synchronised timeline, as its events. */
    var data: Option<seq<Event>>
    var event: Option<Event>

    ghost predicate Valid()
      reads this
    {
      data.Some? ==> lastSyncMin.Some? && lastSyncMax.Some?
    }

    /** `daysBackward`/`daysForward` are the advanced options, absent when not configured. */
    constructor(hoursBackward: int, hoursForward: int, daysBackward: Option<int>, daysForward: Option<int>)
      ensures minDays == WindowStartDays(hoursBackward, daysBackward.GetOr(DefaultDaysBackward))
      ensures maxDays == WindowEndDays(hoursForward, daysForward.GetOr(DefaultDaysForward))
      ensures lastSyncMin.None? && lastSyncMax.None? && data.None? && event.None?
      ensures Valid()
    {
      minDays := WindowStartDays(hoursBackward, daysBackward.GetOr(DefaultDaysBackward));
      maxDays := WindowEndDays(hoursForward, daysForward.GetOr(DefaultDaysForward));
      lastSyncMin := None;
      lastSyncMax := None;
      data := None;
      event := None;
    }

    /**
     * `_async_update_data`: the window moves to `now` first; `synced` is the
     * timeline after the sync, None when the sync raised (the data is then kept).
     */
    method UpdateData(now: int, synced: Option<seq<Event>>)
      requires Valid()
      modifies this
      ensures Valid()
      ensures lastSyncMin == Some(now as real + minDays * 86400.0)
      ensures lastSyncMax == Some(now as real + maxDays * 86400.0)
      ensures data == if synced.Some? then synced else old(data)
      ensures event == old(event)
    {
      lastSyncMin := Some(now as real + minDays * 86400.0);
      lastSyncMax := Some(now as real + maxDays * 86400.0);
      if synced.Some? {
        data := synced;
      }
    }

    /**
     * `async_get_events`: raises before the first sync; the service is asked
     * outside the window (`fromService`, None when it raises), else the
     * cached timeline's `overlapping` answers.
     */
    method GetEvents(start: int, end: int, fromService: Option<seq<Event>>,
                     overlapping: (seq<Event>, int, int) -> seq<Event>) returns (r: EventsResult)
      requires Valid()
      ensures data.None? ==> r == Raises
      ensures data.Some? ==>
                var source := SourceOf(true, start, end, lastSyncMin.value, lastSyncMax.value);
                (source == FromService ==> r == (if fromService.Some? then Events(fromService.value) else Raises)) &&
                (source == FromCache ==> r == Events(overlapping(data.value, start, end)))
    {
      if data.None? {
        return Raises;
      }
      if start as real < lastSyncMin.value || end as real > lastSyncMax.value {
        if fromService.None? {
          return Raises;
        }
        return Events(fromService.value);
      }
      return Events(overlapping(data.value, start, end));
    }

    /**
     * `get_current_event`: the events of the coming day are scanned once,
     * remembering the first of each kind. Without data the remembered event is
     * cleared; otherwise it is left alone.
     */
    method GetCurrentEvent(now: int, zoneOffset: int, overlapping: (seq<Event>, int, int) -> seq<Event>)
      returns (r: Option<Event>)
      modifies this
      ensures data.None? ==> r.None? && event.None?
      ensures data.Some? ==> r == CurrentEventOf(overlapping(data.value, now, now + SecondsPerDay), now, zoneOffset) &&
                             event == old(event)
      ensures data == old(data) && lastSyncMin == old(lastSyncMin) && lastSyncMax == old(lastSyncMax)
    {
      if data.None? {
        event := None;
        return None;
      }
      var events := overlapping(data.value, now, now + SecondsPerDay);
      r := ScanForCurrent(events, now, zoneOffset);
    }
  }

  /** The scanning loop of `get_current_event`. */
  method ScanForCurrent(events: seq<Event>, now: int, zoneOffset: int) returns (r: Option<Event>)
    ensures r == CurrentEventOf(events, now, zoneOffset)
  {
    var started: Option<Event> := None;
    var notStarted: Option<Event> := None;
    var allDay: Option<Event> := None;
    var i := 0;
    while i < |events|
      invariant 0 <= i <= |events|
      invariant started == FirstOf(events[..i], InProgress, now, zoneOffset)
      invariant allDay == FirstOf(events[..i], AllDay, now, zoneOffset)
      invariant notStarted == FirstOf(events[..i], Upcoming, now, zoneOffset)
    {
      var e := events[i];
      FirstOfStep(events, i, InProgress, now, zoneOffset);
      FirstOfStep(events, i, AllDay, now, zoneOffset);
      FirstOfStep(events, i, Upcoming, now, zoneOffset);
      var finished := Finished(e, now, zoneOffset);
      var isStarted := Started(e, now, zoneOffset);
      if e.isAllDay {
        if allDay.None? && !finished {
          allDay := Some(e);
        }
      } else if isStarted && !finished {
        if started.None? {
          started := Some(e);
        }
      } else if !finished && !e.isAllDay && notStarted.None? {
        notStarted := Some(e);
      }
      i := i + 1;
    }
    assert events[..|events|] == events;
    if started.Some? {
      r := started;
    } else if allDay.Some? {
      r := allDay;
    } else {
      r := notStarted;
    }
  }
}
