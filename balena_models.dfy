// Balena Cloud: the fleet, device, metrics and service records (models.py)
// and how they are read from the API's dictionaries.

module BalenaModels {
  import opened Common

  /** A parsed ISO 8601 timestamp, as seconds since the epoch. */
  type Instant = int

  /**
   * `_parse_datetime`. Parsing ISO 8601 text belongs to the runtime, so the
   * parser is a parameter that answers None where `fromisoformat` raises.
   */
  function ParseDatetime(text: Option<string>, fromIso: string -> Option<Instant>): (r: Option<Instant>)
    ensures text.None? || text.value == "" ==> r.None?
    ensures text.Some? && text.value != "" ==> r == fromIso(IsoText(text.value))
  {
    if text.None? || text.value == "" then None else fromIso(IsoText(text.value))
  }

  /** The text handed to the parser: a trailing "Z" designator is spelled "+00:00". */
  function IsoText(s: string): (t: string)
    ensures HasSuffix(s, "Z") ==> t == s[..|s| - 1] + "+00:00" && HasSuffix(t, "+00:00")
    ensures !HasSuffix(s, "Z") ==> t == s
  {
    if HasSuffix(s, "Z") then s[..|s| - 1] + "+00:00" else s
  }

  /** A "Z" timestamp and its explicit-offset spelling parse the same. */
  lemma ZuluIsUtc(s: string, fromIso: string -> Option<Instant>)
    ensures ParseDatetime(Some(s + "Z"), fromIso) == ParseDatetime(Some(s + "+00:00"), fromIso)
  {
    assert HasSuffix(s + "Z", "Z");
    assert (s + "Z")[..|s + "Z"| - 1] == s;
    var t := s + "+00:00";
    assert t[|t| - 1] == '0';
  }

  // ---- fleets -------------------------------------------------------------------

  datatype Fleet = Fleet(id: int, appName: string, slug: string, deviceType: string, createdAt: Option<Instant>)

  /** The fields of a fleet dictionary; None is a missing key. */
  datatype FleetData = FleetData(id: Option<int>, appName: Option<string>, slug: Option<string>,
                                 deviceType: Option<string>, createdAt: Option<string>)

  function FleetFromApi(data: FleetData, fromIso: string -> Option<Instant>): (f: Fleet)
    ensures f.id == data.id.GetOr(0) && f.appName == data.appName.GetOr("")
    ensures f.slug == data.slug.GetOr("") && f.deviceType == data.deviceType.GetOr("")
  {
    Fleet(data.id.GetOr(0), data.appName.GetOr(""), data.slug.GetOr(""), data.deviceType.GetOr(""),
          ParseDatetime(data.createdAt, fromIso))
  }

  // ---- metrics ------------------------------------------------------------------

  datatype Metrics = Metrics(
    cpuUsage: Option<real>,
    memoryUsage: Option<int>,
    memoryTotal: Option<int>,
    storageUsage: Option<int>,
    storageTotal: Option<int>,
    temperature: Option<real>)

  /** `round(x, 1)`: a whole number of tenths, half a tenth away at most, ties to even. */
  function RoundTenths(x: real): (r: real)
    ensures (r * 10.0).Floor as real == r * 10.0
    ensures -0.05 <= r - x <= 0.05
    ensures r - x == 0.05 || r - x == -0.05 ==> (r * 10.0).Floor % 2 == 0
  {
    RoundHalfEvenIsClose(x, 1);
    assert Scale(1) == 10.0;
    TenthsOfUnits(RoundHalfEven(x, 1), x, Scale(1), RoundUnits(x * Scale(1)));
    RoundHalfEven(x, 1)
  }

  /** A whole number `n` of tenths within half a tenth of `x`, even at a tie, read in tenths. */
  lemma TenthsOfUnits(r: real, x: real, scale: real, n: int)
    requires scale == 10.0
    requires r * scale == n as real
    requires -0.5 <= (r - x) * scale <= 0.5
    requires (r - x) * scale == 0.5 || (r - x) * scale == -0.5 ==> n % 2 == 0
    ensures (r * 10.0).Floor as real == r * 10.0
    ensures -0.05 <= r - x <= 0.05
    ensures r - x == 0.05 || r - x == -0.05 ==> (r * 10.0).Floor % 2 == 0
  {
    assert r * scale == r * 10.0 && (r - x) * scale == (r - x) * 10.0;
    assert (r * 10.0).Floor == n;
  }

  /** Rounding to tenths keeps a value between two integers between them. */
  lemma RoundTenthsBetween(x: real, lo: int, hi: int)
    requires lo as real <= x <= hi as real
    ensures lo as real <= RoundTenths(x) <= hi as real
  {
    RoundHalfEvenIsClose(x, 1);
    RoundUnitsBetween(x * 10.0, lo * 10, hi * 10);
  }

  /** A share of a total in percent, rounded to tenths, when both are known and the total is positive. */
  function Percentage(usage: Option<int>, total: Option<int>): (p: Option<real>)
    ensures p.Some? <==> usage.Some? && total.Some? && total.value > 0
    ensures p.Some? ==> p.value == RoundTenths(Share(usage.value, total.value))
    ensures p.Some? && 0 <= usage.value <= total.value ==> 0.0 <= p.value <= 100.0
  {
    if usage.Some? && total.Some? && total.value > 0
    then
      ShareBetween(usage.value, total.value);
      Some(RoundTenths(Share(usage.value, total.value)))
    else None
  }

  /** `usage / total * 100`, exactly. */
  function Share(usage: int, total: int): real
    requires total > 0
  {
    usage as real * 100.0 / total as real
  }

  lemma ShareBetween(usage: int, total: int)
    requires total > 0
    ensures Share(usage, total) * total as real == usage as real * 100.0
    ensures 0 <= usage <= total ==> 0.0 <= Share(usage, total) <= 100.0
    ensures 0 <= usage <= total ==> 0.0 <= RoundTenths(Share(usage, total)) <= 100.0
  {
    if 0 <= usage <= total {
      RoundTenthsBetween(Share(usage, total), 0, 100);
    }
  }

  /** `cpu_percentage`: the reported usage rounded to tenths. */
  function CpuPercentage(m: Metrics): (p: Option<real>)
    ensures p.Some? <==> m.cpuUsage.Some?
    ensures p.Some? ==> -0.05 <= p.value - m.cpuUsage.value <= 0.05
  {
    if m.cpuUsage.Some? then Some(RoundTenths(m.cpuUsage.value)) else None
  }

  function MemoryPercentage(m: Metrics): Option<real> { Percentage(m.memoryUsage, m.memoryTotal) }

  function StoragePercentage(m: Metrics): Option<real> { Percentage(m.storageUsage, m.storageTotal) }

  /** `temperature_rounded`: what the temperature sensor shows. */
  function TemperatureRounded(m: Metrics): (t: Option<real>)
    ensures t.Some? <==> m.temperature.Some?
    ensures t.Some? ==> -0.05 <= t.value - m.temperature.value <= 0.05
  {
    if m.temperature.Some? then Some(RoundTenths(m.temperature.value)) else None
  }

  /** 9501 of 10000 bytes is 95.01%, shown as 95.0%. */
  lemma MemoryShareIsRounded()
    ensures Percentage(Some(9501), Some(10000)) == Some(95.0)
  {
    assert Share(9501, 10000) == 95.01;
    assert Pow10(1) == 10;
    assert (95.01 * 10.0).Floor == 950;
  }

  // ---- devices ------------------------------------------------------------------

  datatype Device = Device(
    uuid: string,
    deviceName: string,
    deviceType: string,
    fleetId: int,
    fleetName: string,
    isOnline: bool,
    status: string,
    lastConnectivityEvent: Option<Instant>,
    lastVpnEvent: Option<Instant>,
    ipAddress: Option<string>,
    macAddress: Option<string>,
    osVersion: Option<string>,
    supervisorVersion: Option<string>,
    publicAddress: Option<string>,
    metrics: Option<Metrics>)

  /** The nested `belongs_to__application` dictionary. */
  datatype AppRef = AppRef(id: Option<int>, appName: Option<string>)

  /** The fields of a device dictionary; None is a missing key. */
  datatype DeviceData = DeviceData(
    uuid: Option<string>,
    deviceName: Option<string>,
    name: Option<string>,
    deviceType: Option<string>,
    app: Option<AppRef>,
    isOnline: Option<bool>,
    status: Option<string>,
    lastConnectivityEvent: Option<string>,
    lastVpnEvent: Option<string>,
    ipAddress: Option<string>,
    macAddress: Option<string>,
    osVersion: Option<string>,
    supervisorVersion: Option<string>,
    publicAddress: Option<string>)

  function AppId(data: DeviceData): Option<int>
  {
    if data.app.Some? then data.app.value.id else None
  }

  /** `BalenaDevice.from_api_data`; a non-empty `fleetName` wins over the nested app name. */
  function DeviceFromApi(data: DeviceData, fleetName: string, fromIso: string -> Option<Instant>): (d: Device)
    ensures d.uuid == data.uuid.GetOr("")
    ensures d.deviceName == if data.deviceName.Some? && data.deviceName.value != "" then data.deviceName.value
                            else data.name.GetOr("")
    ensures d.fleetId == AppId(data).GetOr(0)
    ensures fleetName != "" ==> d.fleetName == fleetName
    ensures fleetName == "" ==> d.fleetName == if data.app.Some? then data.app.value.appName.GetOr("") else ""
    ensures d.isOnline == data.isOnline.GetOr(false) && d.status == data.status.GetOr("offline")
    ensures d.metrics.None?
  {
    Device(
      data.uuid.GetOr(""),
      if data.deviceName.Some? && data.deviceName.value != "" then data.deviceName.value else data.name.GetOr(""),
      data.deviceType.GetOr(""),
      AppId(data).GetOr(0),
      if fleetName != "" then fleetName else if data.app.Some? then data.app.value.appName.GetOr("") else "",
      data.isOnline.GetOr(false),
      data.status.GetOr("offline"),
      ParseDatetime(data.lastConnectivityEvent, fromIso),
      ParseDatetime(data.lastVpnEvent, fromIso),
      data.ipAddress, data.macAddress, data.osVersion, data.supervisorVersion, data.publicAddress,
      None)
  }

  /** A dictionary with none of the keys gives an offline device of fleet 0. */
  lemma EmptyDeviceDefaults(fleetName: string, fromIso: string -> Option<Instant>)
    ensures var d := DeviceFromApi(DeviceData(None, None, None, None, None, None, None, None, None,
                                              None, None, None, None, None), fleetName, fromIso);
            d.status == "offline" && !d.isOnline && d.fleetId == 0 && d.fleetName == fleetName &&
            d.uuid == "" && d.lastConnectivityEvent.None? && d.lastVpnEvent.None?
  {
  }

  /** `display_name`: the device name when it is set, otherwise the uuid. */
  function DisplayName(d: Device): (n: string)
    ensures d.deviceName != "" ==> n == d.deviceName
    ensures d.deviceName == "" ==> n == d.uuid
  {
    if d.deviceName != "" then d.deviceName else d.uuid
  }

  predicate IsUpdating(d: Device)
  {
    d.status in ["Updating", "Downloading", "Downloaded"]
  }

  predicate IsIdle(d: Device)
  {
    d.status == "Idle"
  }

  /** `last_seen`: the connectivity event, else the VPN event. */
  function LastSeen(d: Device): (t: Option<Instant>)
    ensures d.lastConnectivityEvent.Some? ==> t == d.lastConnectivityEvent
    ensures d.lastConnectivityEvent.None? ==> t == d.lastVpnEvent
  {
    if d.lastConnectivityEvent.Some? then d.lastConnectivityEvent else d.lastVpnEvent
  }

  /** The fields of a metrics dictionary; None is a missing key. */
  datatype MetricsData = MetricsData(
    cpuUsage: Option<real>,
    memoryUsage: Option<int>,
    memoryTotal: Option<int>,
    storageUsage: Option<int>,
    storageTotal: Option<int>,
    temperature: Option<real>)

  /** `update_metrics`: the whole metrics record is replaced; nothing else changes. */
  function UpdateMetrics(d: Device, data: MetricsData): (r: Device)
    ensures r.metrics == Some(Metrics(data.cpuUsage, data.memoryUsage, data.memoryTotal,
                                      data.storageUsage, data.storageTotal, data.temperature))
    ensures r.(metrics := d.metrics) == d
  {
    d.(metrics := Some(Metrics(data.cpuUsage, data.memoryUsage, data.memoryTotal,
                                data.storageUsage, data.storageTotal, data.temperature)))
  }

  /** A key the new dictionary lacks is forgotten, even if the device knew it before. */
  lemma UpdateMetricsForgetsMissingKeys(d: Device, data: MetricsData)
    requires data.temperature.None? && d.metrics.Some? && d.metrics.value.temperature.Some?
    ensures UpdateMetrics(d, data).metrics.value.temperature.None?
    ensures UpdateMetrics(d, data) != d
  {
  }

  // ---- services -------------------------------------------------------------------

  datatype Service = Service(serviceName: string, status: string, restartCount: int)

  predicate IsRunning(s: Service)
  {
    LowerString(s.status) == "running"
  }

  predicate HasFailed(s: Service)
  {
    LowerString(s.status) in ["failed", "exited"]
  }

  /** Lower-casing twice is lower-casing once (used below). */
  lemma {:induction false} LowerIdempotent(s: string)
    ensures LowerString(LowerString(s)) == LowerString(s)
    decreases |s|
  {
    if |s| > 0 {
      LowerIdempotent(s[1..]);
      assert LowerString(s)[1..] == LowerString(s[1..]);
    }
  }

  /** The checks ignore case, and a service is never both running and failed. */
  lemma ServiceStatusIgnoresCase(s: Service)
    ensures IsRunning(s) <==> IsRunning(s.(status := LowerString(s.status)))
    ensures HasFailed(s) <==> HasFailed(s.(status := LowerString(s.status)))
    ensures !(IsRunning(s) && HasFailed(s))
  {
    LowerIdempotent(s.status);
  }
}
