// Microsoft 365 calendar: the service-call validators that check and convert
// the time zones of event times, and the calendar-entity defaults
// (schema_integration.py).

module Ms365Schema {
  import opened Common

  datatype Zone = Zone(name: string, offset: int)

  /** A field of a service call: a datetime (wall-clock seconds and zone, if any), or something else. */
  datatype Value = DateTime(wall: int, tz: Option<Zone>) | Other(text: string)

  type Fields = map<string, Value>

  /** What a validator does with the fields: passes them on, rejects them, or raises an unexpected error. */
  datatype Check = Passes(fields: Fields) | Invalid | Crashes

  /** The time zones of the listed keys as `obj.get(key).tzinfo` reads them; None when one of them is not a datetime. */
  function Zones(keys: seq<string>, obj: Fields): (zs: Option<seq<Option<Zone>>>)
    ensures zs.None? <==> exists i :: 0 <= i < |keys| && (keys[i] !in obj || !obj[keys[i]].DateTime?)
    ensures zs.Some? ==> |zs.value| == |keys| && forall i :: 0 <= i < |keys| ==> zs.value[i] == obj[keys[i]].tz
  {
    if |keys| == 0 then Some([])
    else
      var prefix := keys[..|keys| - 1];
      var k := keys[|keys| - 1];
      assert forall i :: 0 <= i < |prefix| ==> prefix[i] == keys[i];
      var rest := Zones(prefix, obj);
      if rest.None? || k !in obj || !obj[k].DateTime? then None else Some(rest.value + [obj[k].tz])
  }

  predicate AllSame<T(==)>(s: seq<T>)
  {
    forall i, j :: 0 <= i < |s| && 0 <= j < |s| ==> s[i] == s[j]
  }

  /** More than one run of equal zones, as `groupby` counts them, is the same as not all zones being equal. */
  lemma {:induction false} RunsAreAllSame<T>(s: seq<T>)
    ensures AllSame(s) <==> forall i :: 0 <= i < |s| - 1 ==> s[i] == s[i + 1]
    decreases |s|
  {
    if (forall i :: 0 <= i < |s| - 1 ==> s[i] == s[i + 1]) && |s| > 0 {
      RunsAreAllSame(s[1..]);
      assert forall i :: 0 <= i < |s| - 2 ==> s[1..][i] == s[1..][i + 1];
      forall i, j | 0 <= i < |s| && 0 <= j < |s|
        ensures s[i] == s[j]
      {
        if i > 0 && j > 0 {
          assert s[i] == s[1..][i - 1] && s[j] == s[1..][j - 1];
        } else if |s| > 1 {
          assert s[0] == s[1] == s[1..][0];
          assert s[i] == s[1..][if i > 0 then i - 1 else 0] && s[j] == s[1..][if j > 0 then j - 1 else 0];
        }
      }
    }
  }

  /** The number of groups `itertools.groupby` forms: runs of equal adjacent elements. */
  function RunCount<T(==)>(s: seq<T>): (n: nat)
    ensures |s| > 0 ==> n >= 1
    ensures n <= |s|
  {
    if |s| <= 1 then |s|
    else RunCount(s[..|s| - 1]) + (if s[|s| - 1] != s[|s| - 2] then 1 else 0)
  }

  /** There is more than one group exactly when the elements are not all equal. */
  lemma {:induction false} RunCountAboveOne<T>(s: seq<T>)
    ensures RunCount(s) > 1 <==> !AllSame(s)
    decreases |s|
  {
    RunsAreAllSame(s);
    if |s| > 1 {
      var prefix := s[..|s| - 1];
      RunCountAboveOne(prefix);
      RunsAreAllSame(prefix);
      assert forall i :: 0 <= i < |prefix| ==> prefix[i] == s[i];
      if AllSame(s) {
        assert AllSame(prefix);
        assert s[|s| - 1] == s[|s| - 2];
      }
    }
  }

  /**
   * `_has_consistent_timezone` as written: a listed key that is missing or
   * not a datetime makes `.tzinfo` raise, which the validator does not catch.
   */
  function ConsistentTimezoneAsWritten(keys: seq<string>, obj: Fields): (c: Check)
    ensures c.Crashes? <==> Zones(keys, obj).None?
    ensures c.Passes? ==> c.fields == obj && AllSame(Zones(keys, obj).value)
    ensures c.Invalid? ==> !AllSame(Zones(keys, obj).value)
  {
    var zs := Zones(keys, obj);
    if zs.None? then Crashes
    else if AllSame(zs.value) then Passes(obj)
    else Invalid
  }

  /** The validator: collect each key's zone, then count the groups of equal zones. */
  method HasConsistentTimezone(keys: seq<string>, obj: Fields) returns (c: Check)
    ensures c == ConsistentTimezoneAsWritten(keys, obj)
  {
    var tzinfos := CollectZones(keys, obj);
    if tzinfos.None? {
      return Crashes;
    }
    var groups := CountGroups(tzinfos.value);
    RunCountAboveOne(tzinfos.value);
    if groups > 1 {
      return Invalid;
    }
    return Passes(obj);
  }

  /** The loop appending `obj.get(key).tzinfo` for each key; None where that raises. */
  method CollectZones(keys: seq<string>, obj: Fields) returns (zs: Option<seq<Option<Zone>>>)
    ensures zs == Zones(keys, obj)
  {
    var tzinfos: seq<Option<Zone>> := [];
    var i := 0;
    while i < |keys|
      invariant 0 <= i <= |keys|
      invariant Zones(keys[..i], obj) == Some(tzinfos)
    {
      var key := keys[i];
      assert keys[..i + 1][..i] == keys[..i];
      if key !in obj || !obj[key].DateTime? {
        ZonesOfLongerKeys(keys, i + 1, obj);
        return None;
      }
      tzinfos := tzinfos + [obj[key].tz];
      i := i + 1;
    }
    assert keys[..|keys|] == keys;
    return Some(tzinfos);
  }

  /** `len(list(groupby(tzinfos)))`. */
  method CountGroups<T(==)>(s: seq<T>) returns (groups: nat)
    ensures groups == RunCount(s)
  {
    groups := 0;
    var j := 0;
    while j < |s|
      invariant 0 <= j <= |s|
      invariant groups == RunCount(s[..j])
    {
      assert s[..j + 1][..j] == s[..j];
      if j == 0 || s[j] != s[j - 1] {
        groups := groups + 1;
      }
      j := j + 1;
    }
    assert s[..|s|] == s;
  }

  /** Once a prefix of the keys has no zone list, neither has the whole list. */
  lemma ZonesOfLongerKeys(keys: seq<string>, n: nat, obj: Fields)
    requires n <= |keys| && Zones(keys[..n], obj).None?
    ensures Zones(keys, obj).None?
  {
    var i :| 0 <= i < n && (keys[..n][i] !in obj || !obj[keys[..n][i]].DateTime?);
    assert keys[..n][i] == keys[i];
  }

  /** A modification that leaves the start out crashes the validator instead of passing. */
  lemma ModifyWithoutStartCrashes(subject: string)
    ensures ConsistentTimezoneAsWritten(["start", "end"], map["subject" := Other(subject)]) == Crashes
  {
    assert "start" !in map["subject" := Other(subject)];
  }

  /** The key is present and holds a datetime. */
  predicate HasTime(obj: Fields, key: string)
  {
    key in obj && obj[key].DateTime?
  }

  /** The zones of the listed keys that hold a datetime, in order; the other keys are skipped. */
  function PresentZones(keys: seq<string>, obj: Fields): (zs: seq<Option<Zone>>)
    ensures (forall i :: 0 <= i < |keys| ==> HasTime(obj, keys[i])) ==> Zones(keys, obj) == Some(zs)
  {
    if |keys| == 0 then []
    else
      var prefix := keys[..|keys| - 1];
      var k := keys[|keys| - 1];
      assert forall i :: 0 <= i < |prefix| ==> prefix[i] == keys[i];
      var rest := PresentZones(prefix, obj);
      if HasTime(obj, k) then rest + [obj[k].tz] else rest
  }

  /** `z` is the zone of one of the listed keys that hold a datetime. */
  predicate ZoneOfPresentKey(keys: seq<string>, obj: Fields, z: Option<Zone>)
  {
    exists i :: 0 <= i < |keys| && HasTime(obj, keys[i]) && obj[keys[i]].tz == z
  }

  /** Each collected zone is the zone of a present key, and each present key's zone is collected. */
  lemma {:induction false} PresentZonesAreThePresentKeys(keys: seq<string>, obj: Fields)
    ensures forall z :: z in PresentZones(keys, obj) ==> ZoneOfPresentKey(keys, obj, z)
    ensures forall i :: 0 <= i < |keys| && HasTime(obj, keys[i]) ==> obj[keys[i]].tz in PresentZones(keys, obj)
    decreases |keys|
  {
    if |keys| > 0 {
      var prefix := keys[..|keys| - 1];
      var k := keys[|keys| - 1];
      assert forall i :: 0 <= i < |prefix| ==> prefix[i] == keys[i];
      PresentZonesAreThePresentKeys(prefix, obj);
      var rest := PresentZones(prefix, obj);
      var zs := PresentZones(keys, obj);
      forall z | z in zs
        ensures ZoneOfPresentKey(keys, obj, z)
      {
        if z in rest {
          var i :| 0 <= i < |prefix| && HasTime(obj, prefix[i]) && obj[prefix[i]].tz == z;
          assert keys[i] == prefix[i];
        } else {
          assert HasTime(obj, keys[|keys| - 1]) && obj[keys[|keys| - 1]].tz == z;
        }
      }
      forall i | 0 <= i < |keys| && HasTime(obj, keys[i])
        ensures obj[keys[i]].tz in zs
      {
        if i < |prefix| {
          assert keys[i] == prefix[i];
        }
      }
    }
  }

  /** The present zones are all one zone exactly when no two present keys carry different zones. */
  lemma PresentZonesAgree(keys: seq<string>, obj: Fields)
    ensures AllSame(PresentZones(keys, obj)) <==>
              forall i, j :: 0 <= i < |keys| && 0 <= j < |keys| && HasTime(obj, keys[i]) && HasTime(obj, keys[j]) ==>
                               obj[keys[i]].tz == obj[keys[j]].tz
  {
    var zs := PresentZones(keys, obj);
    PresentZonesAreThePresentKeys(keys, obj);
    if !AllSame(zs) {
      var n, m :| 0 <= n < |zs| && 0 <= m < |zs| && zs[n] != zs[m];
      assert ZoneOfPresentKey(keys, obj, zs[n]) && ZoneOfPresentKey(keys, obj, zs[m]);
      var i :| 0 <= i < |keys| && HasTime(obj, keys[i]) && obj[keys[i]].tz == zs[n];
      var j :| 0 <= j < |keys| && HasTime(obj, keys[j]) && obj[keys[j]].tz == zs[m];
      assert obj[keys[i]].tz != obj[keys[j]].tz;
    }
  }

  /**
   * `_has_consistent_timezone` with keys that are absent or hold no datetime
   * skipped, so that an optional start or end is not required: the zones of
   * the remaining keys must agree.
   */
  function ConsistentTimezone(keys: seq<string>, obj: Fields): (c: Check)
    ensures !c.Crashes?
    ensures c.Passes? ==> c.fields == obj
    ensures c.Invalid? <==> exists i, j :: 0 <= i < |keys| && 0 <= j < |keys| &&
                                           HasTime(obj, keys[i]) && HasTime(obj, keys[j]) &&
                                           obj[keys[i]].tz != obj[keys[j]].tz
  {
    PresentZonesAgree(keys, obj);
    if AllSame(PresentZones(keys, obj)) then Passes(obj) else Invalid
  }

  /** Where every listed key holds a datetime, the corrected check and the original agree. */
  lemma CorrectionOnlyAffectsMissingTimes(keys: seq<string>, obj: Fields)
    requires forall i :: 0 <= i < |keys| ==> keys[i] in obj && obj[keys[i]].DateTime?
    ensures ConsistentTimezone(keys, obj) == ConsistentTimezoneAsWritten(keys, obj)
  {
  }

  /** An absent third key does not hide a start and an end in different zones. */
  lemma AbsentKeyKeepsOthersChecked(start: int, end: int, a: Zone, b: Zone)
    requires a != b
    ensures ConsistentTimezone(["start", "end", "x"],
                               map["start" := DateTime(start, Some(a)), "end" := DateTime(end, Some(b))]) == Invalid
  {
    var keys := ["start", "end", "x"];
    var obj := map["start" := DateTime(start, Some(a)), "end" := DateTime(end, Some(b))];
    assert HasTime(obj, keys[0]) && HasTime(obj, keys[1]) && obj[keys[0]].tz != obj[keys[1]].tz;
  }

  /** A modification of the subject alone passes the corrected check. */
  lemma ModifyWithoutStartPasses(subject: string)
    ensures ConsistentTimezone(["start", "end"], map["subject" := Other(subject)]) == Passes(map["subject" := Other(subject)])
  {
    assert "start" !in map["subject" := Other(subject)];
  }

  // ---- conversion to local time ---------------------------------------------------------

  /** `dt_util.as_local` with the host zone `local`: a naive time is taken as local, an aware one keeps its instant. */
  function AsLocal(v: Value, local: Zone): (r: Value)
    requires v.DateTime?
    ensures r.DateTime? && r.tz == Some(local)
    ensures v.tz.Some? ==> r.wall - local.offset == v.wall - v.tz.value.offset
    ensures v.tz.None? ==> r.wall == v.wall
  {
    if v.tz == Some(local) then v
    else if v.tz.None? then DateTime(v.wall, Some(local))
    else DateTime(v.wall - v.tz.value.offset + local.offset, Some(local))
  }

  /** The fields after converting the first `|keys|` listed keys. */
  function LocalFields(keys: seq<string>, obj: Fields, local: Zone): (r: Fields)
    ensures r.Keys == obj.Keys
    ensures forall k :: k in obj && (k !in keys || !obj[k].DateTime?) ==> r[k] == obj[k]
    ensures forall k :: k in obj && k in keys && obj[k].DateTime? ==> r[k] == AsLocal(obj[k], local)
  {
    if |keys| == 0 then obj
    else
      var prefix := keys[..|keys| - 1];
      var k := keys[|keys| - 1];
      assert keys == prefix + [k];
      var rest := LocalFields(prefix, obj, local);
      if k in obj && obj[k].DateTime? then rest[k := AsLocal(obj[k], local)] else rest
  }

  /** `_as_local_timezone`: each listed datetime is replaced by its local-time equivalent. */
  method AsLocalTimezone(keys: seq<string>, obj: Fields, local: Zone) returns (r: Fields)
    ensures r == LocalFields(keys, obj, local)
  {
    r := obj;
    var i := 0;
    while i < |keys|
      invariant 0 <= i <= |keys|
      invariant r == LocalFields(keys[..i], obj, local)
    {
      var k := keys[i];
      assert keys[..i + 1] == keys[..i] + [k];
      if k in r && r[k].DateTime? {
        r := r[k := AsLocal(r[k], local)];
      }
      i := i + 1;
    }
    assert keys[..|keys|] == keys;
  }

  /** Converting twice changes nothing more than converting once. */
  lemma AsLocalIsIdempotent(keys: seq<string>, obj: Fields, local: Zone)
    ensures LocalFields(keys, LocalFields(keys, obj, local), local) == LocalFields(keys, obj, local)
  {
  }

  /** The create and modify schemas: the time zones are checked before the times are converted. */
  function EventSchema(obj: Fields, local: Zone): (c: Check)
    ensures !c.Crashes?
    ensures c.Invalid? <==> ConsistentTimezone(["start", "end"], obj).Invalid?
    ensures c.Passes? ==> forall k :: k in c.fields && (k == "start" || k == "end") && c.fields[k].DateTime? ==>
                                        c.fields[k].tz == Some(local)
  {
    var checked := ConsistentTimezone(["start", "end"], obj);
    if checked.Invalid? then Invalid else Passes(LocalFields(["start", "end"], obj, local))
  }

  // ---- calendar entity defaults -----------------------------------------------------------

  /** The hours ahead and behind a calendar entity covers: 24 ahead and 0 behind unless configured. */
  function EntityHours(hoursForward: Option<int>, hoursBackward: Option<int>): (h: (int, int))
    ensures hoursForward.None? ==> h.0 == 24
    ensures hoursBackward.None? ==> h.1 == 0
    ensures hoursForward.Some? ==> h.0 == hoursForward.value
    ensures hoursBackward.Some? ==> h.1 == hoursBackward.value
  {
    (hoursForward.GetOr(24), hoursBackward.GetOr(0))
  }
}
