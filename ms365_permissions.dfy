// Microsoft 365 calendar and to-do: the permission scopes an account requests
// (ms365_calendar and ms365_todo permissions_integration.py).

module Ms365Permissions {
  import opened Common

  const CalendarsRead := "Calendars.Read"
  const CalendarsReadBasic := "Calendars.ReadBasic"
  const CalendarsReadWrite := "Calendars.ReadWrite"
  const GroupReadAll := "Group.Read.All"
  const GroupReadWriteAll := "Group.ReadWrite.All"

  /** The suffix of a calendar scope: the shared-mailbox suffix when a shared mailbox is configured. */
  function SharedSuffix(sharedMailbox: Option<string>, permShared: string): (s: string)
    ensures s == "" || s == permShared
    ensures s == "" <==> sharedMailbox.None? || sharedMailbox.value == "" || permShared == ""
  {
    if sharedMailbox.Some? && sharedMailbox.value != "" then permShared else ""
  }

  /** `_build_calendar_permissions`: ReadBasic wins over ReadWrite, and Read is the fallback. */
  function CalendarScope(basicCalendar: bool, enableUpdate: bool, shared: string): (scope: string)
    ensures basicCalendar ==> scope == CalendarsReadBasic + shared
    ensures !basicCalendar && enableUpdate ==> scope == CalendarsReadWrite + shared
    ensures !basicCalendar && !enableUpdate ==> scope == CalendarsRead + shared
  {
    if basicCalendar then CalendarsReadBasic + shared
    else if enableUpdate then CalendarsReadWrite + shared
    else CalendarsRead + shared
  }

  /** `_build_group_permissions`: one group scope when groups are enabled, never with the shared suffix. */
  function GroupScopes(groups: bool, enableUpdate: bool): (scopes: seq<string>)
    ensures |scopes| == if groups then 1 else 0
    ensures groups ==> scopes[0] == if enableUpdate then GroupReadWriteAll else GroupReadAll
  {
    if !groups then [] else if enableUpdate then [GroupReadWriteAll] else [GroupReadAll]
  }

  /** The calendar's `requested_permissions`: built from the base list only while the current list is empty. */
  function CalendarRequested(current: seq<string>, base: seq<string>, basicCalendar: bool, enableUpdate: bool,
                             groups: bool, shared: string): (r: seq<string>)
    ensures current != [] ==> r == current
    ensures current == [] ==> |r| > |base| && r[..|base|] == base && r[|base|] == CalendarScope(basicCalendar, enableUpdate, shared) &&
                              r[|base| + 1..] == GroupScopes(groups, enableUpdate)
  {
    if current != [] then current
    else
      var r := base + [CalendarScope(basicCalendar, enableUpdate, shared)] + GroupScopes(groups, enableUpdate);
      assert r[..|base|] == base;
      assert r[|base| + 1..] == GroupScopes(groups, enableUpdate);
      r
  }

  /** Asking twice gives the same list: the second call finds it non-empty. */
  lemma CalendarRequestedIsStable(current: seq<string>, base: seq<string>, basicCalendar: bool, enableUpdate: bool,
                                  groups: bool, shared: string)
    ensures var once := CalendarRequested(current, base, basicCalendar, enableUpdate, groups, shared);
            CalendarRequested(once, base, basicCalendar, enableUpdate, groups, shared) == once
  {
    var once := CalendarRequested(current, base, basicCalendar, enableUpdate, groups, shared);
    if current == [] {
      assert once[|base|] == CalendarScope(basicCalendar, enableUpdate, shared);
    }
  }

  /** Exactly one calendar scope is requested beyond the base list, whatever the settings. */
  lemma OneCalendarScope(base: seq<string>, basicCalendar: bool, enableUpdate: bool, groups: bool, shared: string)
    ensures var r := CalendarRequested([], base, basicCalendar, enableUpdate, groups, shared);
            |r| == |base| + 1 + (if groups then 1 else 0)
    ensures basicCalendar && enableUpdate ==>
              CalendarRequested([], base, basicCalendar, enableUpdate, groups, shared)[|base|] == CalendarsReadBasic + shared
  {
  }

  class CalendarPermissions {
    const shared: string
    const enableUpdate: bool
    const basicCalendar: bool
    const groups: bool
    var requested: seq<string>

    /** `enable_update`, `basic_calendar` and `groups` default to false when absent. */
    constructor(sharedMailbox: Option<string>, enableUpdate: Option<bool>, basicCalendar: Option<bool>,
                groups: Option<bool>, permShared: string)
      ensures shared == SharedSuffix(sharedMailbox, permShared)
      ensures this.enableUpdate == enableUpdate.GetOr(false)
      ensures this.basicCalendar == basicCalendar.GetOr(false)
      ensures this.groups == groups.GetOr(false)
      ensures requested == []
    {
      shared := SharedSuffix(sharedMailbox, permShared);
      this.enableUpdate := enableUpdate.GetOr(false);
      this.basicCalendar := basicCalendar.GetOr(false);
      this.groups := groups.GetOr(false);
      requested := [];
    }

    /** `requested_permissions`; `base` is a copy of the shared base scope list, which is never changed. */
    method RequestedPermissions(base: seq<string>) returns (scopes: seq<string>)
      modifies this
      ensures requested == CalendarRequested(old(requested), base, basicCalendar, enableUpdate, groups, shared)
      ensures scopes == requested
    {
      if requested == [] {
        requested := base;
        requested := requested + [CalendarScope(basicCalendar, enableUpdate, shared)];
        if groups {
          if enableUpdate {
            requested := requested + [GroupReadWriteAll];
          } else {
            requested := requested + [GroupReadAll];
          }
        }
      }
      scopes := requested;
    }
  }

  // ---- to-do lists ------------------------------------------------------------------------

  /** The to-do `requested_permissions`: the base list and one tasks scope, built only while empty. */
  function TodoRequested(current: seq<string>, base: seq<string>, enableUpdate: bool, tasksRead: string,
                         tasksReadWrite: string): (r: seq<string>)
    ensures current != [] ==> r == current
    ensures current == [] ==> |r| == |base| + 1 && r[..|base|] == base
    ensures current == [] ==> r[|base|] == if enableUpdate then tasksReadWrite else tasksRead
  {
    if current != [] then current else base + [if enableUpdate then tasksReadWrite else tasksRead]
  }

  lemma TodoRequestedIsStable(current: seq<string>, base: seq<string>, enableUpdate: bool, tasksRead: string,
                              tasksReadWrite: string)
    ensures var once := TodoRequested(current, base, enableUpdate, tasksRead, tasksReadWrite);
            once != [] && TodoRequested(once, base, enableUpdate, tasksRead, tasksReadWrite) == once
  {
  }

  class TodoPermissions {
    const enableUpdate: bool
    var requested: seq<string>

    constructor(enableUpdate: Option<bool>)
      ensures this.enableUpdate == enableUpdate.GetOr(false)
      ensures requested == []
    {
      this.enableUpdate := enableUpdate.GetOr(false);
      requested := [];
    }

    /** `tasksRead` and `tasksReadWrite` are the to-do scope names, defined outside this model. */
    method RequestedPermissions(base: seq<string>, tasksRead: string, tasksReadWrite: string) returns (scopes: seq<string>)
      modifies this
      ensures requested == TodoRequested(old(requested), base, enableUpdate, tasksRead, tasksReadWrite)
      ensures scopes == requested
    {
      if requested == [] {
        requested := base;
        if enableUpdate {
          requested := requested + [tasksReadWrite];
        } else {
          requested := requested + [tasksRead];
        }
      }
      scopes := requested;
    }
  }
}
