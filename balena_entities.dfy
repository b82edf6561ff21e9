// Balena Cloud: the per-device sensor entities (sensor.py) and the public-URL
// switch (switch.py), read against the coordinator's device cache.

module BalenaEntities {
  import opened Common
  import opened BalenaModels

  /** An attribute or state value. */
  datatype AttrVal = AText(s: string) | AInt(i: int) | AReal(r: real) | ABool(b: bool) | ATime(t: Instant)

  function TextOf(s: Option<string>): Option<AttrVal>
  {
    if s.Some? then Some(AText(s.value)) else None
  }

  function IntOf(i: Option<int>): Option<AttrVal>
  {
    if i.Some? then Some(AInt(i.value)) else None
  }

  function RealOf(r: Option<real>): Option<AttrVal>
  {
    if r.Some? then Some(AReal(r.value)) else None
  }

  // ---- sensors -------------------------------------------------------------------------

  /** The seven sensor descriptions, one per kind. */
  datatype SensorKind = CpuUsage | MemoryUsage | StorageUsage | Temperature | FleetName | IpAddress | MacAddress

  const SensorTypes: seq<SensorKind> := [CpuUsage, MemoryUsage, StorageUsage, Temperature, FleetName, IpAddress, MacAddress]

  function Key(k: SensorKind): string
  {
    match k
    case CpuUsage => "cpu_usage"
    case MemoryUsage => "memory_usage"
    case StorageUsage => "storage_usage"
    case Temperature => "temperature"
    case FleetName => "fleet_name"
    case IpAddress => "ip_address"
    case MacAddress => "mac_address"
  }

  function DescriptionName(k: SensorKind): string
  {
    match k
    case CpuUsage => "CPU Usage"
    case MemoryUsage => "Memory Usage"
    case StorageUsage => "Storage Usage"
    case Temperature => "Temperature"
    case FleetName => "Fleet"
    case IpAddress => "IP Address"
    case MacAddress => "MAC Address"
  }

  /** No two descriptions share a key. */
  lemma KeysAreDistinct(a: SensorKind, b: SensorKind)
    requires a != b
    ensures Key(a) != Key(b)
  {
    assert Key(a)[0] != Key(b)[0] || Key(a)[1] != Key(b)[1] || |Key(a)| != |Key(b)|;
  }

  /** `unique_id`: the device uuid and the description key. */
  function UniqueId(uuid: string, k: SensorKind): (id: string)
    ensures HasPrefix(id, uuid + "_") && id[|uuid| + 1..] == Key(k)
  {
    uuid + "_" + Key(k)
  }

  /** A device's sensors all have different unique ids. */
  lemma UniqueIdsAreDistinct(uuid: string, a: SensorKind, b: SensorKind)
    requires a != b
    ensures UniqueId(uuid, a) != UniqueId(uuid, b)
  {
    KeysAreDistinct(a, b);
    assert UniqueId(uuid, a)[|uuid| + 1..] == Key(a);
  }

  /** The sensors that only a running device can feed. */
  predicate DeviceSpecific(k: SensorKind)
  {
    Key(k) in {"cpu_usage", "memory_usage", "storage_usage", "temperature", "ip_address"}
  }

  /** `available`: the coordinator's last update succeeded and the device is cached; device-specific sensors also need it online. */
  function SensorAvailable(k: SensorKind, coordinatorOk: bool, devices: map<string, Device>, uuid: string): (a: bool)
    ensures uuid !in devices || !coordinatorOk ==> !a
    ensures coordinatorOk && uuid in devices && k !in {FleetName, MacAddress} ==> (a <==> devices[uuid].isOnline)
    ensures coordinatorOk && uuid in devices && k in {FleetName, MacAddress} ==> a
  {
    if !coordinatorOk || uuid !in devices then false
    else if DeviceSpecific(k) then devices[uuid].isOnline
    else true
  }

  /**
   * `available` as its docstring describes it: every sensor but the fleet
   * name, the MAC address included, needs a running device.
   */
  function DocumentedSensorAvailable(k: SensorKind, coordinatorOk: bool, devices: map<string, Device>, uuid: string): (a: bool)
    ensures uuid !in devices || !coordinatorOk ==> !a
    ensures coordinatorOk && uuid in devices && k != FleetName ==> (a <==> devices[uuid].isOnline)
    ensures coordinatorOk && uuid in devices && k == FleetName ==> a
  {
    if !coordinatorOk || uuid !in devices then false
    else if k != FleetName then devices[uuid].isOnline
    else true
  }

  /** As written, the MAC sensor of an offline device stays available, where the docstring says it does not. */
  lemma OfflineMacStaysAvailable(devices: map<string, Device>, uuid: string)
    requires uuid in devices && !devices[uuid].isOnline
    ensures SensorAvailable(MacAddress, true, devices, uuid)
    ensures !DocumentedSensorAvailable(MacAddress, true, devices, uuid)
  {
  }

  /** The code and the docstring disagree on the MAC sensor of an offline device only. */
  lemma {:induction false} DocumentedDiffersOnlyForMac(k: SensorKind, coordinatorOk: bool, devices: map<string, Device>, uuid: string)
    ensures DocumentedSensorAvailable(k, coordinatorOk, devices, uuid) != SensorAvailable(k, coordinatorOk, devices, uuid) <==>
            k == MacAddress && coordinatorOk && uuid in devices && !devices[uuid].isOnline
  {
    if k == MacAddress {
      assert !DeviceSpecific(k) by { assert Key(k) == "mac_address"; }
    }
  }

  /** `name`: the device's display name and the description name. */
  function SensorName(k: SensorKind, devices: map<string, Device>, uuid: string): (n: string)
    ensures uuid in devices ==> n == DisplayName(devices[uuid]) + " " + DescriptionName(k)
    ensures uuid !in devices ==> n == "Unknown Device " + DescriptionName(k)
  {
    if uuid in devices then DisplayName(devices[uuid]) + " " + DescriptionName(k)
    else "Unknown Device " + DescriptionName(k)
  }

  /** `value_fn`. */
  function Value(k: SensorKind, d: Device): Option<AttrVal>
  {
    match k
    case CpuUsage => if d.metrics.Some? then RealOf(CpuPercentage(d.metrics.value)) else None
    case MemoryUsage => if d.metrics.Some? then RealOf(MemoryPercentage(d.metrics.value)) else None
    case StorageUsage => if d.metrics.Some? then RealOf(StoragePercentage(d.metrics.value)) else None
    case Temperature => if d.metrics.Some? then RealOf(TemperatureRounded(d.metrics.value)) else None
    case FleetName => Some(AText(d.fleetName))
    case IpAddress => TextOf(d.ipAddress)
    case MacAddress => TextOf(d.macAddress)
  }

  /** `native_value`: None for a device the coordinator no longer has. */
  function NativeValue(k: SensorKind, devices: map<string, Device>, uuid: string): (v: Option<AttrVal>)
    ensures uuid !in devices ==> v.None?
    ensures uuid in devices ==> v == Value(k, devices[uuid])
  {
    if uuid in devices then Value(k, devices[uuid]) else None
  }

  /** A device without metrics reads None on all four metric sensors. */
  lemma NoMetricsNoReadings(d: Device, k: SensorKind)
    requires d.metrics.None? && k in {CpuUsage, MemoryUsage, StorageUsage, Temperature}
    ensures Value(k, d).None?
  {
  }

  /** The attributes every sensor of a device starts from. */
  function BaseAttributes(d: Device): map<string, Option<AttrVal>>
  {
    map[
      "device_uuid" := Some(AText(d.uuid)),
      "device_name" := Some(AText(d.deviceName)),
      "device_type" := Some(AText(d.deviceType)),
      "fleet_id" := Some(AInt(d.fleetId)),
      "fleet_name" := Some(AText(d.fleetName)),
      "is_online" := Some(ABool(d.isOnline)),
      "os_version" := TextOf(d.osVersion),
      "supervisor_version" := TextOf(d.supervisorVersion),
      "ip_address" := TextOf(d.ipAddress),
      "public_address" := TextOf(d.publicAddress),
      "mac_address" := TextOf(d.macAddress),
      "last_seen" := if LastSeen(d).Some? then Some(ATime(LastSeen(d).value)) else None]
  }

  /** `attr_fn`: the sensor-specific attributes, for the descriptions that have one. */
  function SpecificAttributes(k: SensorKind, d: Device): map<string, Option<AttrVal>>
  {
    match k
    case MemoryUsage =>
      map["memory_usage" := if d.metrics.Some? then IntOf(d.metrics.value.memoryUsage) else None,
          "memory_total" := if d.metrics.Some? then IntOf(d.metrics.value.memoryTotal) else None]
    case StorageUsage =>
      map["storage_usage" := if d.metrics.Some? then IntOf(d.metrics.value.storageUsage) else None,
          "storage_total" := if d.metrics.Some? then IntOf(d.metrics.value.storageTotal) else None]
    case FleetName => map["fleet_id" := Some(AInt(d.fleetId)), "fleet_name" := Some(AText(d.fleetName))]
    case IpAddress => map["ip_address" := TextOf(d.ipAddress), "public_address" := TextOf(d.publicAddress)]
    case _ => map[]
  }

  /**
   * `extra_state_attributes`: the base attributes updated by the
   * sensor-specific ones, with every None value removed; empty for a device
   * the coordinator no longer has.
   */
  function ExtraAttributes(k: SensorKind, devices: map<string, Device>, uuid: string): (r: map<string, AttrVal>)
    ensures uuid !in devices ==> r == map[]
    ensures uuid in devices ==>
              var base := BaseAttributes(devices[uuid]);
              var specific := SpecificAttributes(k, devices[uuid]);
              (forall n :: n in r <==> (n in specific && specific[n].Some?) ||
                                       (n !in specific && n in base && base[n].Some?)) &&
              (forall n :: n in r && n in specific ==> specific[n] == Some(r[n])) &&
              (forall n :: n in r && n !in specific ==> base[n] == Some(r[n]))
  {
    if uuid !in devices then map[]
    else DropNone(BaseAttributes(devices[uuid]) + SpecificAttributes(k, devices[uuid]))
  }

  /** The sensor-specific None wins over a base value: a device without metrics shows no memory figures. */
  lemma SpecificNoneHidesAttribute(devices: map<string, Device>, uuid: string)
    requires uuid in devices && devices[uuid].metrics.None?
    ensures "memory_usage" !in ExtraAttributes(MemoryUsage, devices, uuid)
    ensures "device_uuid" in ExtraAttributes(MemoryUsage, devices, uuid)
  {
    var d := devices[uuid];
    var specific := SpecificAttributes(MemoryUsage, d);
    assert specific == map["memory_usage" := None, "memory_total" := None];
    assert |"device_uuid"| != |"memory_usage"| == |"memory_total"|;
    assert "device_uuid" !in specific;
    assert BaseAttributes(d)["device_uuid"] == Some(AText(d.uuid));
  }

  // ---- the public-URL switch -------------------------------------------------------------

  /** What a coordinator call gave: an exception, or its answer. */
  datatype Reply<T> = Raised | Answer(value: T)

  /**
   * `async_turn_on`: with the device cached and URLs enabled, the fetched
   * URL (possibly None) is cached; otherwise nothing changes. The URL
   * getter's own guard answers None for an unknown device.
   */
  function TurnOnStep(cached: Option<string>, known: bool, enable: Reply<bool>, get: Reply<Option<string>>): Option<string>
  {
    if !known then cached
    else match enable
      case Raised => cached
      case Answer(ok) =>
        if !ok then cached
        else match get
          case Raised => cached
          case Answer(url) => url
  }

  /** `async_turn_off`: a successful disable clears the cached URL. */
  function TurnOffStep(cached: Option<string>, known: bool, disable: Reply<bool>): Option<string>
  {
    if known && disable == Answer(true) then None else cached
  }

  /** `async_update`: the fetched URL replaces the cached one unless the fetch raised. */
  function UpdateStep(cached: Option<string>, known: bool, get: Reply<Option<string>>): Option<string>
  {
    if !known then None
    else match get
      case Raised => cached
      case Answer(url) => url
  }

  /** Turning on or off for a device the coordinator lacks changes nothing. */
  lemma MissingDeviceIsNoop(cached: Option<string>, enable: Reply<bool>, get: Reply<Option<string>>)
    ensures TurnOnStep(cached, false, enable, get) == cached
    ensures TurnOffStep(cached, false, enable) == cached
  {
  }

  /** A refused or failing toggle leaves the switch as it was; a successful off turns it off. */
  lemma ToggleOutcomes(cached: Option<string>, r: Reply<bool>, get: Reply<Option<string>>)
    requires r != Answer(true)
    ensures TurnOnStep(cached, true, r, get) == cached
    ensures TurnOffStep(cached, true, r) == cached
    ensures TurnOffStep(cached, true, Answer(true)).None?
  {
  }

  /** A successful turn-on whose URL is not yet available leaves the switch off. */
  lemma EnabledWithoutUrlStaysOff(cached: Option<string>)
    ensures TurnOnStep(cached, true, Answer(true), Answer(None)).None?
  {
  }

  /** A failed refresh keeps the cached URL. */
  lemma FailedUpdateKeepsUrl(cached: Option<string>)
    ensures UpdateStep(cached, true, Raised) == cached
  {
  }

  /** `extra_state_attributes`: the device fields that are known, and the URL only when it is non-empty. */
  function SwitchAttributes(devices: map<string, Device>, uuid: string, cached: Option<string>): (r: map<string, AttrVal>)
    ensures "public_url" in r <==> cached.Some? && cached.value != ""
    ensures "public_url" in r ==> r["public_url"] == AText(cached.value)
    ensures "device_uuid" in r <==> uuid in devices
  {
    var d: Option<Device> := if uuid in devices then Some(devices[uuid]) else None;
    var base := map[
      "device_uuid" := if d.Some? then Some(AText(d.value.uuid)) else None,
      "device_name" := if d.Some? then Some(AText(d.value.deviceName)) else None,
      "device_type" := if d.Some? then Some(AText(d.value.deviceType)) else None,
      "fleet_name" := if d.Some? then Some(AText(d.value.fleetName)) else None];
    var attrs := if cached.Some? && cached.value != "" then base["public_url" := Some(AText(cached.value))] else base;
    DropNone(attrs)
  }

  class PublicUrlSwitch {
    const uuid: string
    var cachedUrl: Option<string>

    constructor(uuid: string)
      ensures this.uuid == uuid && cachedUrl.None? && !IsOn()
    {
      this.uuid := uuid;
      cachedUrl := None;
    }

    /** `is_on`: a URL is cached. */
    function IsOn(): bool
      reads this
    {
      cachedUrl.Some?
    }

    /** `name`. */
    function Name(devices: map<string, Device>): (n: string)
      ensures uuid in devices ==> n == DisplayName(devices[uuid]) + " Public URL"
      ensures uuid !in devices ==> n == "Unknown Device Public URL"
    {
      if uuid in devices then DisplayName(devices[uuid]) + " Public URL" else "Unknown Device Public URL"
    }

    method TurnOn(devices: map<string, Device>, enable: Reply<bool>, get: Reply<Option<string>>)
      modifies this
      ensures cachedUrl == TurnOnStep(old(cachedUrl), uuid in devices, enable, get)
    {
      if uuid !in devices {
        return;
      }
      if enable.Raised? || !enable.value {
        return;
      }
      if get.Answer? {
        cachedUrl := get.value;
      }
    }

    method TurnOff(devices: map<string, Device>, disable: Reply<bool>)
      modifies this
      ensures cachedUrl == TurnOffStep(old(cachedUrl), uuid in devices, disable)
    {
      if uuid !in devices {
        return;
      }
      if disable == Answer(true) {
        cachedUrl := None;
      }
    }

    method Update(devices: map<string, Device>, get: Reply<Option<string>>)
      modifies this
      ensures cachedUrl == UpdateStep(old(cachedUrl), uuid in devices, get)
    {
      if uuid !in devices {
        cachedUrl := None;
      } else if get.Answer? {
        cachedUrl := get.value;
      }
    }
  }
}
