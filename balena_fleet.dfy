// Balena Cloud: the fleet overview's statistics and health summary
// (fleet_overview.py).

module BalenaFleet {
  import opened Common
  import opened BalenaModels

  // ---- counting -------------------------------------------------------------------

  function CountOnline(ds: seq<Device>): (n: nat)
    ensures n <= |ds|
  {
    if |ds| == 0 then 0 else CountOnline(ds[..|ds| - 1]) + (if ds[|ds| - 1].isOnline then 1 else 0)
  }

  function CountUpdating(ds: seq<Device>): (n: nat)
    ensures n <= |ds|
  {
    if |ds| == 0 then 0 else CountUpdating(ds[..|ds| - 1]) + (if IsUpdating(ds[|ds| - 1]) then 1 else 0)
  }

  function CountIdle(ds: seq<Device>): (n: nat)
    ensures n <= |ds|
  {
    if |ds| == 0 then 0 else CountIdle(ds[..|ds| - 1]) + (if IsIdle(ds[|ds| - 1]) then 1 else 0)
  }

  /** A dictionary of counts in insertion order. */
  type Tally = seq<(string, nat)>

  /** `counts[k] = counts.get(k, 0) + 1`. */
  function Bump(t: Tally, k: string): (r: Tally)
    ensures |r| == |t| || |r| == |t| + 1
  {
    if |t| == 0 then [(k, 1)]
    else if t[0].0 == k then [(k, t[0].1 + 1)] + t[1..]
    else [t[0]] + Bump(t[1..], k)
  }

  function Lookup(t: Tally, k: string): nat
  {
    if |t| == 0 then 0 else if t[0].0 == k then t[0].1 else Lookup(t[1..], k)
  }

  function Total(t: Tally): nat
  {
    if |t| == 0 then 0 else t[0].1 + Total(t[1..])
  }

  predicate DistinctKeys(t: Tally)
  {
    forall i, j :: 0 <= i < j < |t| ==> t[i].0 != t[j].0
  }

  lemma {:induction false} BumpCounts(t: Tally, k: string, q: string)
    ensures Total(Bump(t, k)) == Total(t) + 1
    ensures Lookup(Bump(t, k), q) == Lookup(t, q) + (if q == k then 1 else 0)
    decreases |t|
  {
    if |t| > 0 && t[0].0 != k {
      BumpCounts(t[1..], k, q);
      assert Bump(t, k)[1..] == Bump(t[1..], k);
    }
  }

  lemma {:induction false} BumpKeepsKeysDistinct(t: Tally, k: string)
    requires DistinctKeys(t)
    ensures DistinctKeys(Bump(t, k))
    ensures forall i :: 0 <= i < |Bump(t, k)| ==> Bump(t, k)[i].0 == k || exists j :: 0 <= j < |t| && t[j].0 == Bump(t, k)[i].0
    decreases |t|
  {
    if |t| > 0 && t[0].0 != k {
      BumpKeepsKeysDistinct(t[1..], k);
      var r := Bump(t, k);
      assert r[1..] == Bump(t[1..], k);
      forall i | 1 <= i < |r|
        ensures r[i].0 != r[0].0
      {
        if r[i].0 != k {
          var j :| 0 <= j < |t[1..]| && t[1..][j].0 == r[i].0;
          assert t[j + 1].0 == r[i].0;
        }
      }
      forall i | 1 <= i < |r| && r[i].0 != k
        ensures exists j :: 0 <= j < |t| && t[j].0 == r[i].0
      {
        var j :| 0 <= j < |t[1..]| && t[1..][j].0 == r[i].0;
        assert t[j + 1].0 == r[i].0;
      }
      assert r[0] == t[0];
    }
  }

  /** How often `k` occurs in `keys`. */
  function Occurrences(keys: seq<string>, k: string): nat
  {
    if |keys| == 0 then 0 else Occurrences(keys[..|keys| - 1], k) + (if keys[|keys| - 1] == k then 1 else 0)
  }

  /** The counts the loop builds, one key at a time. */
  function TallyOf(keys: seq<string>): Tally
  {
    if |keys| == 0 then [] else Bump(TallyOf(keys[..|keys| - 1]), keys[|keys| - 1])
  }

  /** Every key is counted as often as it occurs, the keys are distinct, and the counts sum to the length. */
  lemma {:induction false} TallyIsExact(keys: seq<string>, q: string)
    ensures Total(TallyOf(keys)) == |keys|
    ensures Lookup(TallyOf(keys), q) == Occurrences(keys, q)
    ensures DistinctKeys(TallyOf(keys))
    decreases |keys|
  {
    if |keys| > 0 {
      var n := |keys| - 1;
      TallyIsExact(keys[..n], q);
      BumpCounts(TallyOf(keys[..n]), keys[n], q);
      BumpKeepsKeysDistinct(TallyOf(keys[..n]), keys[n]);
    }
  }

  function DeviceTypes(ds: seq<Device>): seq<string>
  {
    seq(|ds|, i requires 0 <= i < |ds| => ds[i].deviceType)
  }

  function Statuses(ds: seq<Device>): seq<string>
  {
    seq(|ds|, i requires 0 <= i < |ds| => ds[i].status)
  }

  // ---- health ---------------------------------------------------------------------

  datatype DeviceHealth = HealthUnknown | Critical | Warning | Healthy

  predicate Above(v: Option<real>, limit: real)
  {
    v.Some? && v.value > limit
  }

  predicate Within(v: Option<real>, low: real, high: real)
  {
    v.Some? && low < v.value <= high
  }

  predicate CriticalMetrics(m: Metrics)
  {
    Above(CpuPercentage(m), 95.0) || Above(MemoryPercentage(m), 95.0) ||
    Above(StoragePercentage(m), 98.0) || Above(m.temperature, 85.0)
  }

  predicate WarningMetrics(m: Metrics)
  {
    Within(CpuPercentage(m), 80.0, 95.0) || Within(MemoryPercentage(m), 85.0, 95.0) ||
    Within(StoragePercentage(m), 90.0, 98.0) || Within(m.temperature, 75.0, 85.0)
  }

  /** `_assess_device_health`. */
  function AssessDeviceHealth(d: Device): (h: DeviceHealth)
    ensures h == HealthUnknown <==> d.metrics.None?
    ensures h == Critical <==> d.metrics.Some? && CriticalMetrics(d.metrics.value)
    ensures h == Warning <==> d.metrics.Some? && !CriticalMetrics(d.metrics.value) && WarningMetrics(d.metrics.value)
  {
    if d.metrics.None? then HealthUnknown
    else if CriticalMetrics(d.metrics.value) then Critical
    else if WarningMetrics(d.metrics.value) then Warning
    else Healthy
  }

  /** No metric in a warning or critical band means healthy. */
  lemma QuietMetricsAreHealthy(d: Device)
    requires d.metrics.Some?
    requires var m := d.metrics.value;
             (CpuPercentage(m).None? || CpuPercentage(m).value <= 80.0) &&
             (MemoryPercentage(m).None? || MemoryPercentage(m).value <= 85.0) &&
             (StoragePercentage(m).None? || StoragePercentage(m).value <= 90.0) &&
             (m.temperature.None? || m.temperature.value <= 75.0)
    ensures AssessDeviceHealth(d) == Healthy
  {
  }

  /** Health reads the rounded share: 9501 of 10000 bytes of memory in use is a warning, not critical. */
  lemma RoundedMemoryIsOnlyAWarning(d: Device)
    requires d.metrics == Some(Metrics(None, Some(9501), Some(10000), None, None, None))
    ensures AssessDeviceHealth(d) == Warning
  {
    MemoryShareIsRounded();
  }

  datatype Overall = OverallUnknown | OverallHealthy | OverallWarning | OverallCritical

  /** A fleet alert; the text formatting of the share is not modelled. */
  datatype Alert = HighOfflineRate(offline: nat, total: nat) | ElevatedOfflineRate(offline: nat, total: nat)
                 | CriticalDevices(count: nat)

  datatype FleetHealth = FleetHealth(overall: Overall, critical: nat, warning: nat, healthy: nat, alerts: seq<Alert>)

  /** Offline devices count as critical; devices without metrics count as healthy. */
  function Classify(d: Device): DeviceHealth
  {
    if !d.isOnline then Critical
    else var h := AssessDeviceHealth(d); if h == HealthUnknown then Healthy else h
  }

  function CountHealth(ds: seq<Device>, h: DeviceHealth): (n: nat)
    ensures n <= |ds|
  {
    if |ds| == 0 then 0 else CountHealth(ds[..|ds| - 1], h) + (if Classify(ds[|ds| - 1]) == h then 1 else 0)
  }

  /** One more device adds one to its own bucket only. */
  lemma CountHealthStep(ds: seq<Device>, i: nat)
    requires i < |ds|
    ensures forall h :: CountHealth(ds[..i + 1], h) == CountHealth(ds[..i], h) + (if Classify(ds[i]) == h then 1 else 0)
  {
    assert ds[..i + 1][..i] == ds[..i];
  }

  lemma {:induction false} HealthCountsPartition(ds: seq<Device>)
    ensures CountHealth(ds, Critical) + CountHealth(ds, Warning) + CountHealth(ds, Healthy) == |ds|
    decreases |ds|
  {
    if |ds| > 0 {
      HealthCountsPartition(ds[..|ds| - 1]);
    }
  }

  lemma {:induction false} OfflineAreCritical(ds: seq<Device>)
    ensures CountHealth(ds, Critical) >= |ds| - CountOnline(ds)
    decreases |ds|
  {
    if |ds| > 0 {
      OfflineAreCritical(ds[..|ds| - 1]);
    }
  }

  function OverallOf(critical: nat, warning: nat): Overall
  {
    if critical == 0 && warning == 0 then OverallHealthy
    else if critical == 0 then OverallWarning
    else OverallCritical
  }

  /** Alerts: the offline share over 50% or over 25%, then the number of critical devices. */
  function AlertsOf(offline: nat, total: nat, critical: nat): seq<Alert>
  {
    (if offline * 2 > total then [HighOfflineRate(offline, total)]
     else if offline * 4 > total then [ElevatedOfflineRate(offline, total)]
     else []) +
    (if critical > 0 then [CriticalDevices(critical)] else [])
  }

  function FleetHealthOf(ds: seq<Device>): FleetHealth
  {
    if |ds| == 0 then FleetHealth(OverallUnknown, 0, 0, 0, [])
    else
      var c := CountHealth(ds, Critical);
      var w := CountHealth(ds, Warning);
      FleetHealth(OverallOf(c, w), c, w, CountHealth(ds, Healthy),
                  AlertsOf(|ds| - CountOnline(ds), |ds|, c))
  }

  /** `_calculate_fleet_health`: one pass with three counters. */
  method CalculateFleetHealth(ds: seq<Device>) returns (h: FleetHealth)
    ensures h == FleetHealthOf(ds)
  {
    if |ds| == 0 {
      return FleetHealth(OverallUnknown, 0, 0, 0, []);
    }
    var critical, warning, healthy := 0, 0, 0;
    var i := 0;
    while i < |ds|
      invariant 0 <= i <= |ds|
      invariant critical == CountHealth(ds[..i], Critical)
      invariant warning == CountHealth(ds[..i], Warning)
      invariant healthy == CountHealth(ds[..i], Healthy)
    {
      CountHealthStep(ds, i);
      var d := ds[i];
      if !d.isOnline {
        critical := critical + 1;
      } else {
        var status := AssessDeviceHealth(d);
        if status == Critical {
          critical := critical + 1;
        } else if status == Warning {
          warning := warning + 1;
        } else {
          healthy := healthy + 1;
        }
      }
      i := i + 1;
    }
    assert ds[..i] == ds;
    var offline := |ds| - CountOnline(ds);
    var alerts: seq<Alert> := [];
    if offline * 2 > |ds| {
      alerts := alerts + [HighOfflineRate(offline, |ds|)];
    } else if offline * 4 > |ds| {
      alerts := alerts + [ElevatedOfflineRate(offline, |ds|)];
    }
    if critical > 0 {
      alerts := alerts + [CriticalDevices(critical)];
    }
    h := FleetHealth(OverallOf(critical, warning), critical, warning, healthy, alerts);
  }

  /** Every device lands in exactly one bucket, and the overall status follows the counts. */
  lemma FleetHealthIsConsistent(ds: seq<Device>)
    requires |ds| > 0
    ensures var h := FleetHealthOf(ds);
            h.critical + h.warning + h.healthy == |ds| &&
            (h.overall == OverallHealthy <==> h.critical == 0 && h.warning == 0) &&
            (h.overall == OverallWarning <==> h.critical == 0 && h.warning > 0) &&
            (h.overall == OverallCritical <==> h.critical > 0) &&
            (h.critical > 0 <==> CriticalDevices(h.critical) in h.alerts)
  {
    HealthCountsPartition(ds);
  }

  /** Any offline device makes the fleet critical. */
  lemma OfflineMakesFleetCritical(ds: seq<Device>)
    requires CountOnline(ds) < |ds|
    ensures FleetHealthOf(ds).overall == OverallCritical
  {
    OfflineAreCritical(ds);
  }

  /**
   * The offline alerts follow the offline share as a percentage: "High" above
   * 50%, "Elevated" above 25% and at most 50%, and at most one of the two.
   */
  lemma {:induction false} AlertsFollowOfflineShare(ds: seq<Device>)
    requires |ds| > 0
    ensures var h := FleetHealthOf(ds);
            var off := |ds| - CountOnline(ds);
            var pct := off as real / |ds| as real * 100.0;
            (HighOfflineRate(off, |ds|) in h.alerts <==> pct > 50.0) &&
            (ElevatedOfflineRate(off, |ds|) in h.alerts <==> 25.0 < pct <= 50.0)
  {
    var off := |ds| - CountOnline(ds);
    assert FleetHealthOf(ds).alerts == AlertsOf(off, |ds|, CountHealth(ds, Critical));
    ShareAbove(off, |ds|);
    OfflineAlerts(off, |ds|, CountHealth(ds, Critical));
  }

  lemma OfflineAlerts(off: nat, total: nat, critical: nat)
    ensures HighOfflineRate(off, total) in AlertsOf(off, total, critical) <==> off * 2 > total
    ensures ElevatedOfflineRate(off, total) in AlertsOf(off, total, critical) <==> off * 2 <= total && off * 4 > total
  {
  }

  /** Comparing a percentage with 50 and 25 is comparing by cross-multiplication. */
  lemma ShareAbove(off: nat, total: nat)
    requires total > 0
    ensures off as real / total as real * 100.0 > 50.0 <==> off * 2 > total
    ensures off as real / total as real * 100.0 > 25.0 <==> off * 4 > total
  {
    var t := total as real;
    var q := off as real / t;
    assert q * t == off as real;
    PercentAbove(q, t, 0.5, off as real);
    PercentAbove(q, t, 0.25, off as real);
    assert off as real > 0.5 * t <==> off * 2 > total;
    assert off as real > 0.25 * t <==> off * 4 > total;
  }

  /** A share `q` of `t` whose product is `x` is above `b` (as a percentage) exactly when `x` is above `b * t`. */
  lemma PercentAbove(q: real, t: real, b: real, x: real)
    requires t > 0.0 && q * t == x
    ensures q * 100.0 > b * 100.0 <==> x > b * t
  {
    ScaledAbove(q, t, b);
  }

  /** For a positive `t`, `q` exceeds `b` exactly when `q * t` exceeds `b * t`. */
  lemma ScaledAbove(q: real, t: real, b: real)
    requires t > 0.0
    ensures q > b <==> q * t > b * t
  {
    if q > b {
      ProductPositive(q - b, t);
    } else {
      ProductPositive(t, b - q + 1.0);
      assert (b - q) * t >= 0.0 by { ProductNonNegative(b - q, t); }
    }
  }

  lemma ProductPositive(x: real, y: real)
    requires x > 0.0 && y > 0.0
    ensures x * y > 0.0
  {
  }

  lemma ProductNonNegative(x: real, y: real)
    requires x >= 0.0 && y >= 0.0
    ensures x * y >= 0.0
  {
  }

  /** A fleet without devices has every count 0 and no health summary. */
  lemma EmptyFleetHasNoCounts()
    ensures var s := StatisticsOf([]);
            s.total == 0 && s.online == 0 && s.offline == 0 && s.updating == 0 && s.idle == 0 &&
            s.deviceTypes == [] && s.statusDistribution == [] && s.health.None?
  {
  }

  // ---- statistics -------------------------------------------------------------------

  datatype FleetStatistics = FleetStatistics(
    total: nat, online: nat, offline: nat, updating: nat, idle: nat,
    deviceTypes: Tally, statusDistribution: Tally, health: Option<FleetHealth>)

  function StatisticsOf(ds: seq<Device>): FleetStatistics
  {
    if |ds| == 0 then FleetStatistics(0, 0, 0, 0, 0, [], [], None)
    else FleetStatistics(|ds|, CountOnline(ds), |ds| - CountOnline(ds), CountUpdating(ds), CountIdle(ds),
                         TallyOf(DeviceTypes(ds)), TallyOf(Statuses(ds)), Some(FleetHealthOf(ds)))
  }

  /** `fleet_statistics` (the averaged metrics and percentages are not modelled). */
  method FleetStatisticsOf(ds: seq<Device>) returns (s: FleetStatistics)
    ensures s == StatisticsOf(ds)
  {
    if |ds| == 0 {
      return FleetStatistics(0, 0, 0, 0, 0, [], [], None);
    }
    var deviceTypes: Tally := [];
    var i := 0;
    while i < |ds|
      invariant 0 <= i <= |ds|
      invariant deviceTypes == TallyOf(DeviceTypes(ds)[..i])
    {
      assert DeviceTypes(ds)[..i + 1][..i] == DeviceTypes(ds)[..i];
      deviceTypes := Bump(deviceTypes, ds[i].deviceType);
      i := i + 1;
    }
    assert DeviceTypes(ds)[..i] == DeviceTypes(ds);
    var statuses: Tally := [];
    i := 0;
    while i < |ds|
      invariant 0 <= i <= |ds|
      invariant statuses == TallyOf(Statuses(ds)[..i])
    {
      assert Statuses(ds)[..i + 1][..i] == Statuses(ds)[..i];
      statuses := Bump(statuses, ds[i].status);
      i := i + 1;
    }
    assert Statuses(ds)[..i] == Statuses(ds);
    var health := CalculateFleetHealth(ds);
    s := FleetStatistics(|ds|, CountOnline(ds), |ds| - CountOnline(ds), CountUpdating(ds), CountIdle(ds),
                         deviceTypes, statuses, Some(health));
  }

  /**
   * Online and offline add up to the total, and both distributions count
   * every device once, under its own type or status.
   */
  lemma StatisticsAddUp(ds: seq<Device>, q: string)
    ensures var s := StatisticsOf(ds);
            s.online + s.offline == s.total == |ds| &&
            Total(s.deviceTypes) == s.total && Total(s.statusDistribution) == s.total &&
            Lookup(s.deviceTypes, q) == Occurrences(DeviceTypes(ds), q) &&
            Lookup(s.statusDistribution, q) == Occurrences(Statuses(ds), q)
  {
    if |ds| > 0 {
      TallyIsExact(DeviceTypes(ds), q);
      TallyIsExact(Statuses(ds), q);
    }
  }

  /** `state`: "{online}/{total} online"; the text before the slash reads back as the online count. */
  function StateText(s: FleetStatistics): (r: string)
    ensures HasPrefix(r, NatToString(s.online)) && HasSuffix(r, " online")
    ensures ParseNat(r[..|NatToString(s.online)|]) == s.online
  {
    var on := NatToString(s.online);
    var r := on + "/" + NatToString(s.total) + " online";
    assert r[..|on|] == on;
    ParseNatToString(s.online);
    assert r[|r| - 7..] == " online";
    r
  }
}
