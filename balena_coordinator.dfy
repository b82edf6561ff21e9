// Balena Cloud: the data coordinator's fleet and device caches
// (coordinator.py).

module BalenaCoordinator {
  import opened Common
  import opened BalenaModels

  /** What fetching a device's status gave: an exception, or its non-empty "metrics" dictionary if any. */
  datatype StatusReply = StatusRaises | StatusData(metrics: Option<MetricsData>)

  // ---- fleets ------------------------------------------------------------------------

  /** The fleets dictionary rebuilt from the fetched list; a later fleet with the same id wins. */
  function FleetsFrom(fetched: seq<FleetData>, fromIso: string -> Option<Instant>): map<int, Fleet>
  {
    if |fetched| == 0 then map[]
    else
      var f := FleetFromApi(fetched[|fetched| - 1], fromIso);
      FleetsFrom(fetched[..|fetched| - 1], fromIso)[f.id := f]
  }

  /** The dictionary holds exactly the fetched fleets, each under its own id. */
  lemma {:induction false} FleetsAreKeyedById(fetched: seq<FleetData>, fromIso: string -> Option<Instant>, id: int)
    ensures id in FleetsFrom(fetched, fromIso) <==> exists i :: 0 <= i < |fetched| && FleetFromApi(fetched[i], fromIso).id == id
    ensures id in FleetsFrom(fetched, fromIso) ==> FleetsFrom(fetched, fromIso)[id].id == id
    decreases |fetched|
  {
    if |fetched| > 0 {
      var n := |fetched| - 1;
      FleetsAreKeyedById(fetched[..n], fromIso, id);
      if id in FleetsFrom(fetched, fromIso) && FleetFromApi(fetched[n], fromIso).id != id {
        var i :| 0 <= i < n && FleetFromApi(fetched[..n][i], fromIso).id == id;
        assert fetched[i] == fetched[..n][i];
      }
      if exists i :: 0 <= i < |fetched| && FleetFromApi(fetched[i], fromIso).id == id {
        var i :| 0 <= i < |fetched| && FleetFromApi(fetched[i], fromIso).id == id;
        if i < n {
          assert fetched[..n][i] == fetched[i];
        }
      }
    }
  }

  // ---- devices -----------------------------------------------------------------------

  /** The fleet ids requested: the selected texts that parse as integers and name a known fleet. */
  predicate Requested(s: string, fleets: map<int, Fleet>, toInt: string -> Option<int>)
  {
    toInt(s).Some? && toInt(s).value in fleets
  }

  /**
   * The device dictionaries gathered from the selected fleets, or None when
   * a fetch raised (which aborts the refresh).
   */
  function Gathered(selected: seq<string>, fleets: map<int, Fleet>, toInt: string -> Option<int>,
                    fetchFleet: int -> Option<seq<DeviceData>>): Option<seq<DeviceData>>
  {
    if |selected| == 0 then Some([])
    else
      var before := Gathered(selected[..|selected| - 1], fleets, toInt, fetchFleet);
      var s := selected[|selected| - 1];
      if before.None? then None
      else if !Requested(s, fleets, toInt) then before
      else if fetchFleet(toInt(s).value).None? then None
      else Some(before.value + fetchFleet(toInt(s).value).value)
  }

  /** Once a fetch has raised, the later ids do not matter. */
  lemma {:induction false} FailedFetchAborts(selected: seq<string>, k: nat, fleets: map<int, Fleet>, toInt: string -> Option<int>,
                                             fetchFleet: int -> Option<seq<DeviceData>>)
    requires k <= |selected| && Gathered(selected[..k], fleets, toInt, fetchFleet).None?
    ensures Gathered(selected, fleets, toInt, fetchFleet).None?
    decreases |selected| - k
  {
    if k < |selected| {
      assert selected[..k + 1][..k] == selected[..k];
      FailedFetchAborts(selected, k + 1, fleets, toInt, fetchFleet);
    } else {
      assert selected[..k] == selected;
    }
  }

  /** An id that does not parse, or names no known fleet, is skipped without a fetch. */
  lemma UnrequestedIsSkipped(selected: seq<string>, s: string, fleets: map<int, Fleet>, toInt: string -> Option<int>,
                             fetchFleet: int -> Option<seq<DeviceData>>)
    requires !Requested(s, fleets, toInt)
    ensures Gathered(selected + [s], fleets, toInt, fetchFleet) == Gathered(selected, fleets, toInt, fetchFleet)
  {
    assert (selected + [s])[..|selected|] == selected;
  }

  /** Only known fleets are ever fetched: fetchers that agree on them gather the same devices. */
  lemma {:induction false} OnlyKnownFleetsAreFetched(selected: seq<string>, fleets: map<int, Fleet>, toInt: string -> Option<int>,
                                                     f1: int -> Option<seq<DeviceData>>, f2: int -> Option<seq<DeviceData>>)
    requires forall id :: id in fleets ==> f1(id) == f2(id)
    ensures Gathered(selected, fleets, toInt, f1) == Gathered(selected, fleets, toInt, f2)
    decreases |selected|
  {
    if |selected| > 0 {
      OnlyKnownFleetsAreFetched(selected[..|selected| - 1], fleets, toInt, f1, f2);
    }
  }

  /** The fleet name a device is given: the cached fleet's name when its fleet id is non-zero and known. */
  function FleetNameFor(data: DeviceData, fleets: map<int, Fleet>): (n: string)
    ensures AppId(data).Some? && AppId(data).value != 0 && AppId(data).value in fleets ==>
              n == fleets[AppId(data).value].appName
    ensures !(AppId(data).Some? && AppId(data).value != 0 && AppId(data).value in fleets) ==> n == ""
  {
    var id := AppId(data);
    if id.Some? && id.value != 0 && id.value in fleets then fleets[id.value].appName else ""
  }

  /** The device a dictionary becomes, with its metrics when the status fetch returned some. */
  function Processed(data: DeviceData, fleets: map<int, Fleet>, status: string -> StatusReply,
                     fromIso: string -> Option<Instant>): Device
  {
    var d := DeviceFromApi(data, FleetNameFor(data, fleets), fromIso);
    var reply := status(d.uuid);
    if reply.StatusData? && reply.metrics.Some? then UpdateMetrics(d, reply.metrics.value) else d
  }

  predicate Kept(data: DeviceData, includeOffline: bool)
  {
    includeOffline || data.isOnline.GetOr(false)
  }

  /** The device cache rebuilt from the gathered dictionaries, keyed by uuid; a later device wins. */
  function DevicesFrom(all: seq<DeviceData>, fleets: map<int, Fleet>, includeOffline: bool,
                       status: string -> StatusReply, fromIso: string -> Option<Instant>): map<string, Device>
  {
    if |all| == 0 then map[]
    else
      var before := DevicesFrom(all[..|all| - 1], fleets, includeOffline, status, fromIso);
      var data := all[|all| - 1];
      if !Kept(data, includeOffline) then before
      else var d := Processed(data, fleets, status, fromIso); before[d.uuid := d]
  }

  /** One more dictionary adds its processed device when it is kept. */
  lemma DevicesFromStep(all: seq<DeviceData>, i: nat, fleets: map<int, Fleet>, includeOffline: bool,
                        status: string -> StatusReply, fromIso: string -> Option<Instant>)
    requires i < |all|
    ensures var before := DevicesFrom(all[..i], fleets, includeOffline, status, fromIso);
            var d := Processed(all[i], fleets, status, fromIso);
            DevicesFrom(all[..i + 1], fleets, includeOffline, status, fromIso) ==
              if Kept(all[i], includeOffline) then before[d.uuid := d] else before
  {
    assert all[..i + 1][..i] == all[..i];
    assert all[..i + 1][i] == all[i];
  }

  /**
   * Every cached device sits under its own uuid, came from a gathered
   * dictionary, and is online unless offline devices are included.
   */
  lemma {:induction false} CachedDevicesAreWellFormed(all: seq<DeviceData>, fleets: map<int, Fleet>, includeOffline: bool,
                                                      status: string -> StatusReply, fromIso: string -> Option<Instant>, u: string)
    requires u in DevicesFrom(all, fleets, includeOffline, status, fromIso)
    ensures var d := DevicesFrom(all, fleets, includeOffline, status, fromIso)[u];
            d.uuid == u && (includeOffline || d.isOnline) &&
            exists i :: 0 <= i < |all| && Kept(all[i], includeOffline) && d == Processed(all[i], fleets, status, fromIso)
    decreases |all|
  {
    var n := |all| - 1;
    var d := DevicesFrom(all, fleets, includeOffline, status, fromIso)[u];
    if Kept(all[n], includeOffline) && Processed(all[n], fleets, status, fromIso).uuid == u {
      assert d == Processed(all[n], fleets, status, fromIso);
    } else {
      CachedDevicesAreWellFormed(all[..n], fleets, includeOffline, status, fromIso, u);
      var i :| 0 <= i < n && Kept(all[..n][i], includeOffline) && d == Processed(all[..n][i], fleets, status, fromIso);
      assert all[..n][i] == all[i];
    }
  }

  /** A kept dictionary whose uuid no later dictionary repeats is in the cache as processed. */
  lemma {:induction false} LastDeviceIsCached(all: seq<DeviceData>, fleets: map<int, Fleet>, includeOffline: bool,
                                              status: string -> StatusReply, fromIso: string -> Option<Instant>)
    requires |all| > 0 && Kept(all[|all| - 1], includeOffline)
    ensures var d := Processed(all[|all| - 1], fleets, status, fromIso);
            d.uuid in DevicesFrom(all, fleets, includeOffline, status, fromIso) &&
            DevicesFrom(all, fleets, includeOffline, status, fromIso)[d.uuid] == d
  {
  }

  // ---- the coordinator ----------------------------------------------------------------

  class Coordinator {
    const selectedFleets: seq<string>
    const includeOffline: bool
    var fleets: map<int, Fleet>
    var devices: map<string, Device>

    constructor(selectedFleets: seq<string>, includeOffline: bool)
      ensures this.selectedFleets == selectedFleets && this.includeOffline == includeOffline
      ensures fleets == map[] && devices == map[]
    {
      this.selectedFleets := selectedFleets;
      this.includeOffline := includeOffline;
      fleets := map[];
      devices := map[];
    }

    /** `_async_update_fleets`: a fetch that raises leaves the cache as it was. */
    method UpdateFleets(fetched: Option<seq<FleetData>>, fromIso: string -> Option<Instant>) returns (ok: bool)
      modifies this
      ensures ok == fetched.Some?
      ensures fleets == if fetched.Some? then FleetsFrom(fetched.value, fromIso) else old(fleets)
      ensures devices == old(devices)
    {
      if fetched.None? {
        return false;
      }
      var list := fetched.value;
      fleets := map[];
      var i := 0;
      while i < |list|
        invariant 0 <= i <= |list|
        invariant fleets == FleetsFrom(list[..i], fromIso)
        invariant devices == old(devices)
      {
        assert list[..i + 1][..i] == list[..i];
        var fleet := FleetFromApi(list[i], fromIso);
        fleets := fleets[fleet.id := fleet];
        i := i + 1;
      }
      assert list[..i] == list;
      return true;
    }

    /** The selected fleets' devices, one fetch per requested fleet. */
    method GatherSelected(toInt: string -> Option<int>, fetchFleet: int -> Option<seq<DeviceData>>)
      returns (all: Option<seq<DeviceData>>)
      ensures all == Gathered(selectedFleets, fleets, toInt, fetchFleet)
    {
      var acc: seq<DeviceData> := [];
      var i := 0;
      while i < |selectedFleets|
        invariant 0 <= i <= |selectedFleets|
        invariant Gathered(selectedFleets[..i], fleets, toInt, fetchFleet) == Some(acc)
      {
        assert selectedFleets[..i + 1][..i] == selectedFleets[..i];
        var id := toInt(selectedFleets[i]);
        if id.Some? && id.value in fleets {
          var fleetDevices := fetchFleet(id.value);
          if fleetDevices.None? {
            FailedFetchAborts(selectedFleets, i + 1, fleets, toInt, fetchFleet);
            return None;
          }
          acc := acc + fleetDevices.value;
        }
        i := i + 1;
      }
      assert selectedFleets[..i] == selectedFleets;
      return Some(acc);
    }

    /**
     * `_async_update_devices`: gather the device dictionaries (selected fleets
     * or all), then rebuild the cache from them. A fetch that raises leaves the
     * cache as it was.
     */
    method UpdateDevices(toInt: string -> Option<int>, fetchFleet: int -> Option<seq<DeviceData>>,
                         fetchAll: Option<seq<DeviceData>>, status: string -> StatusReply,
                         fromIso: string -> Option<Instant>) returns (ok: bool)
      modifies this
      ensures var all := if |selectedFleets| > 0 then Gathered(selectedFleets, old(fleets), toInt, fetchFleet) else fetchAll;
              ok == all.Some? &&
              devices == (if all.Some? then DevicesFrom(all.value, fleets, includeOffline, status, fromIso) else old(devices))
      ensures fleets == old(fleets)
    {
      var all: Option<seq<DeviceData>>;
      if |selectedFleets| > 0 {
        all := GatherSelected(toInt, fetchFleet);
      } else {
        all := fetchAll;
      }
      if all.None? {
        return false;
      }
      var list := all.value;
      var cache: map<string, Device> := map[];
      var i := 0;
      while i < |list|
        invariant 0 <= i <= |list|
        invariant cache == DevicesFrom(list[..i], fleets, includeOffline, status, fromIso)
        modifies {}
      {
        DevicesFromStep(list, i, fleets, includeOffline, status, fromIso);
        var fleetName := FleetNameFor(list[i], fleets);
        var device := DeviceFromApi(list[i], fleetName, fromIso);
        if includeOffline || device.isOnline {
          var reply := status(device.uuid);
          if reply.StatusData? && reply.metrics.Some? {
            device := UpdateMetrics(device, reply.metrics.value);
          }
          cache := cache[device.uuid := device];
        }
        i := i + 1;
      }
      assert list[..i] == list;
      devices := cache;
      return true;
    }

    /**
     * The guard shared by the restart, reboot, shutdown, environment and URL
     * actions: an unknown uuid answers false without calling the API; a
     * refresh follows only a true answer of an action that asks for one.
     */
    method RunAction(uuid: string, apiResult: bool, refreshOnSuccess: bool)
      returns (result: bool, apiCalled: bool, refreshed: bool)
      ensures apiCalled <==> uuid in devices
      ensures result <==> uuid in devices && apiResult
      ensures refreshed <==> refreshOnSuccess && result
    {
      if uuid !in devices {
        return false, false, false;
      }
      result := apiResult;
      apiCalled := true;
      refreshed := refreshOnSuccess && result;
    }

    /** `async_get_device_url`: None for an unknown uuid, without calling the API. */
    method GetDeviceUrl(uuid: string, apiUrl: Option<string>) returns (url: Option<string>, apiCalled: bool)
      ensures apiCalled <==> uuid in devices
      ensures url == if uuid in devices then apiUrl else None
    {
      if uuid !in devices {
        return None, false;
      }
      return apiUrl, true;
    }

    /** `get_devices_by_fleet`, keyed by uuid. */
    function DevicesByFleet(fleetId: int): (r: map<string, Device>)
      reads this
      ensures forall u :: u in r <==> u in devices && devices[u].fleetId == fleetId
      ensures forall u :: u in r ==> r[u] == devices[u]
    {
      map u | u in devices && devices[u].fleetId == fleetId :: devices[u]
    }

    function OnlineCount(): (n: nat)
      reads this
      ensures n <= TotalCount()
    {
      var online := set u | u in devices && devices[u].isOnline;
      assert online <= devices.Keys;
      SubsetCard(online, devices.Keys);
      |online|
    }

    function TotalCount(): nat
      reads this
    {
      |devices|
    }
  }

  lemma {:induction false} SubsetCard<T>(a: set<T>, b: set<T>)
    requires a <= b
    ensures |a| <= |b|
    decreases |b|
  {
    if b != {} {
      var x :| x in b;
      SubsetCard(a - {x}, b - {x});
    }
  }

  /** With offline devices excluded, every cached device is online, so the online count is the total. */
  lemma OnlyOnlineDevicesCached(c: Coordinator)
    requires !c.includeOffline
    requires forall u :: u in c.devices ==> c.devices[u].isOnline
    ensures c.OnlineCount() == c.TotalCount()
  {
    var online := set u | u in c.devices && c.devices[u].isOnline;
    assert online == c.devices.Keys;
  }
}
