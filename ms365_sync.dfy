// Microsoft 365 calendar: the sync manager that lists events from the service,
// drops excluded ones and saves the rest locally (sync/sync.py).

module Ms365Sync {
  import opened Common
  import opened Ms365Events

  const EventSync := "event_sync"
  const Items := "items"

  /** Some exclude pattern matches the subject; `search` is `re.search`. */
  predicate Excluded(subject: string, excludes: seq<string>, search: (string, string) -> bool)
  {
    exists k :: 0 <= k < |excludes| && search(excludes[k], subject)
  }

  /** The events no exclude pattern matches, in their original order. */
  function KeptEvents(events: seq<Event>, excludes: seq<string>, search: (string, string) -> bool): (r: seq<Event>)
    ensures |r| <= |events|
    ensures forall e :: e in r <==> e in events && !Excluded(e.subject, excludes, search)
  {
    if |events| == 0 then []
    else
      var prefix := events[..|events| - 1];
      var last := events[|events| - 1];
      assert events == prefix + [last];
      if Excluded(last.subject, excludes, search) then KeptEvents(prefix, excludes, search)
      else KeptEvents(prefix, excludes, search) + [last]
  }

  /** The positions of the kept events in the input. */
  function KeptIndices(events: seq<Event>, excludes: seq<string>, search: (string, string) -> bool): seq<nat>
  {
    if |events| == 0 then []
    else
      var prefix := events[..|events| - 1];
      if Excluded(events[|events| - 1].subject, excludes, search) then KeptIndices(prefix, excludes, search)
      else KeptIndices(prefix, excludes, search) + [|events| - 1]
  }

  /** The kept events are a subsequence of the input: they sit at strictly increasing positions. */
  lemma {:induction false} KeptIsSubsequence(events: seq<Event>, excludes: seq<string>, search: (string, string) -> bool)
    ensures var r := KeptEvents(events, excludes, search);
            var idx := KeptIndices(events, excludes, search);
            |idx| == |r| &&
            (forall i :: 0 <= i < |idx| ==> idx[i] < |events| && r[i] == events[idx[i]]) &&
            (forall i, j :: 0 <= i < j < |idx| ==> idx[i] < idx[j])
    decreases |events|
  {
    if |events| > 0 {
      var prefix := events[..|events| - 1];
      var last := events[|events| - 1];
      KeptIsSubsequence(prefix, excludes, search);
      var r', idx' := KeptEvents(prefix, excludes, search), KeptIndices(prefix, excludes, search);
      assert forall i :: 0 <= i < |prefix| ==> prefix[i] == events[i];
      if Excluded(last.subject, excludes, search) {
        assert KeptEvents(events, excludes, search) == r';
        assert KeptIndices(events, excludes, search) == idx';
      } else {
        var r, idx := r' + [last], idx' + [|events| - 1];
        assert KeptEvents(events, excludes, search) == r;
        assert KeptIndices(events, excludes, search) == idx;
        forall i | 0 <= i < |idx|
          ensures idx[i] < |events| && r[i] == events[idx[i]]
        {
          if i < |idx'| {
            assert idx[i] == idx'[i] && r[i] == r'[i];
          }
        }
      }
    }
  }

  /** `_filter_events`: no events or no exclude list returns the input unchanged. */
  function Filtered(events: seq<Event>, exclude: Option<seq<string>>, search: (string, string) -> bool): (r: seq<Event>)
    ensures |events| == 0 || exclude.None? || exclude.value == [] ==> r == events
  {
    if |events| == 0 || exclude.None? || exclude.value == [] then events
    else KeptEvents(events, exclude.value, search)
  }

  /** The filter loop, with its per-event `include` flag. */
  method FilterEvents(events: seq<Event>, exclude: Option<seq<string>>, search: (string, string) -> bool)
    returns (r: seq<Event>)
    ensures r == Filtered(events, exclude, search)
  {
    if |events| == 0 || exclude.None? || exclude.value == [] {
      return events;
    }
    var excludes := exclude.value;
    r := [];
    var i := 0;
    while i < |events|
      invariant 0 <= i <= |events|
      invariant r == KeptEvents(events[..i], excludes, search)
    {
      var keep := true;
      var k := 0;
      while k < |excludes|
        invariant 0 <= k <= |excludes|
        invariant keep <==> forall m :: 0 <= m < k ==> !search(excludes[m], events[i].subject)
      {
        if search(excludes[k], events[i].subject) {
          keep := false;
        }
        k := k + 1;
      }
      if keep {
        r := r + [events[i]];
      }
      assert events[..i + 1][..i] == events[..i];
      i := i + 1;
    }
    assert events[..|events|] == events;
  }

  /** `{item.object_id: item for item in new_data}`: a later event wins a shared id. */
  function ItemsOf(events: seq<Event>): (m: map<string, Event>)
    ensures forall id :: id in m <==> exists i :: 0 <= i < |events| && events[i].objectId == id
    ensures forall id :: id in m ==> m[id] in events && m[id].objectId == id
  {
    if |events| == 0 then map[]
    else
      var prefix := events[..|events| - 1];
      var last := events[|events| - 1];
      assert forall i :: 0 <= i < |events| - 1 ==> prefix[i] == events[i];
      assert forall e :: e in prefix ==> e in events;
      ItemsOf(prefix)[last.objectId := last]
  }

  /** What the service's listing did: raised, or returned events. */
  datatype Listing = ListRaises | Listed(events: seq<Event>)

  class SyncManager {
    const calendarId: Option<string>
    const exclude: Option<seq<string>>
    /** The store is scoped by the sync key, then by the calendar id. */
    const scope: (string, Option<string>)
    /** The data saved in this manager's scope, if any. */
    var saved: Option<map<string, map<string, Event>>>

    constructor(calendarId: Option<string>, exclude: Option<seq<string>>)
      ensures this.calendarId == calendarId && this.exclude == exclude
      ensures scope == (EventSync, calendarId)
      ensures saved.None?
    {
      this.calendarId := calendarId;
      this.exclude := exclude;
      scope := (EventSync, calendarId);
      saved := None;
    }

    /** `async_list_events`: the service's events for the range, filtered. */
    method ListEvents(listing: Listing, search: (string, string) -> bool) returns (r: Option<seq<Event>>)
      ensures r.None? <==> listing.ListRaises?
      ensures r.Some? ==> r.value == Filtered(listing.events, exclude, search)
    {
      if listing.ListRaises? {
        return None;
      }
      var filtered := FilterEvents(listing.events, exclude, search);
      return Some(filtered);
    }

    /** `run`: the listed events replace whatever was saved before; a failed listing saves nothing. */
    method Run(listing: Listing, search: (string, string) -> bool) returns (ok: bool)
      modifies this
      ensures ok <==> listing.Listed?
      ensures ok ==> saved == Some(map[Items := ItemsOf(Filtered(listing.events, exclude, search))])
      ensures !ok ==> saved == old(saved)
    {
      var events := ListEvents(listing, search);
      if events.None? {
        return false;
      }
      saved := Some(map[Items := ItemsOf(events.value)]);
      return true;
    }
  }

  /** Every saved item is a listed event that no exclude pattern matches, keyed by its id. */
  lemma SavedItemsAreListedAndKept(events: seq<Event>, excludes: seq<string>, search: (string, string) -> bool)
    ensures var items := ItemsOf(Filtered(events, Some(excludes), search));
            forall id :: id in items ==> items[id] in events && items[id].objectId == id &&
                                          !Excluded(items[id].subject, excludes, search)
  {
  }
}
