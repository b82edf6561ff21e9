// Utility meter (next gen): the extra data a meter persists between restarts
// (`UtilitySensorExtraStoredData.as_dict` / `from_dict` in sensor.py) and the
// record the meter hands to the store (`extra_restore_state_data`).

module MeterStore {
  import opened Common
  import opened MeterConst
  import opened MeterSensor

  /**
   * A value of the stored JSON object, and of the Python values the record
   * holds before it is written. `DecimalText(v)` is a decimal (stored as the
   * text `str(v)`), `DecimalObject(v)` the object the base sensor class writes
   * for a decimal native value (its `__type` tag and `decimal_str`),
   * `Timestamp(t)` an ISO 8601 timestamp, and `Str(s)` any other string (such
   * as "None" or "collecting"), which `Decimal(...)` rejects and
   * `parse_datetime` does not recognise.
   */
  datatype Json = Null | Str(s: string) | DecimalText(v: real) | DecimalObject(v: real) | Timestamp(t: int)

  /** Python truthiness of a stored value. */
  predicate Truthy(j: Json)
  {
    match j
    case Null => false
    case Str(s) => s != ""
    case DecimalText(_) => true
    case DecimalObject(_) => true
    case Timestamp(_) => true
  }

  /**
   * The record: `native` and `unit` are the base class's native value and
   * unit of measurement, `inputDeviceClass` the source's device class.
   */
  datatype StoredData = StoredData(
    native: Json,
    unit: Json,
    lastPeriod: real,
    lastReset: Option<int>,
    lastValid: Option<real>,
    status: Json,
    inputDeviceClass: Option<string>,
    calcCurrent: Option<real>,
    calcLast: Option<real>)

  /** What `from_dict` produces: a record, None (`KeyError`/`InvalidOperation`), or an uncaught error. */
  datatype Restore = Restored(data: StoredData) | Rejected | Raises

  /** The meter's native value as a Python value: a decimal or None. */
  function NativeOf(v: Option<real>): Json
  {
    if v.Some? then DecimalText(v.value) else Null
  }

  /**
   * `extra_restore_state_data`: the meter's state as a stored record; `unit`
   * and `deviceClass` are the entity's unit and its source's device class.
   */
  function ExtraRestoreStateData(s: MeterState, unit: Json, deviceClass: Option<string>): (d: StoredData)
    ensures d.native == NativeOf(s.native) && d.unit == unit && d.inputDeviceClass == deviceClass
    ensures d.status == Str(if s.collecting then Collecting else Paused)
    ensures d.lastPeriod == s.lastPeriod && d.lastReset == s.lastReset && d.lastValid == s.lastValid
    ensures d.calcCurrent == Some(s.calcCurrent) && d.calcLast == Some(s.calcLast)
  {
    StoredData(NativeOf(s.native), unit, s.lastPeriod, s.lastReset, s.lastValid,
               Str(if s.collecting then Collecting else Paused), deviceClass,
               Some(s.calcCurrent), Some(s.calcLast))
  }

  /** `str(value)` of an optional decimal: `None` becomes the text "None". */
  function DecimalOrNoneText(v: Option<real>): Json
  {
    if v.Some? then DecimalText(v.value) else Str("None")
  }

  /** The base class's `as_dict` of a native value: a decimal becomes its tagged object. */
  function EncodeNative(j: Json): (e: Json)
    ensures j.DecimalText? ==> e == DecimalObject(j.v)
    ensures !j.DecimalText? ==> e == j
  {
    if j.DecimalText? then DecimalObject(j.v) else j
  }

  /** The base class's `from_dict` of a native value: a tagged decimal object becomes the decimal. */
  function DecodeNative(j: Json): (d: Json)
    ensures j.DecimalObject? ==> d == DecimalText(j.v)
    ensures !j.DecimalObject? ==> d == j
  {
    if j.DecimalObject? then DecimalText(j.v) else j
  }

  /** Decoding undoes encoding for every value that is not itself a tagged object. */
  lemma DecodeEncodeNative(j: Json)
    requires !j.DecimalObject?
    ensures DecodeNative(EncodeNative(j)) == j
  {
  }

  /** `as_dict`: the base class's two keys, then the keys this class adds. */
  function AsDict(d: StoredData): (m: map<string, Json>)
    ensures "native_value" in m && m["native_value"] == EncodeNative(d.native)
    ensures "native_unit_of_measurement" in m && m["native_unit_of_measurement"] == d.unit
    ensures "last_reset" in m <==> d.lastReset.Some?
    ensures d.lastReset.Some? ==> m["last_reset"] == Timestamp(d.lastReset.value)
    ensures "last_period" in m && "status" in m && "last_valid_state" in m
    ensures m["last_period"] == DecimalText(d.lastPeriod) && m["status"] == d.status
    ensures m["last_valid_state"] == (if d.lastValid.Some? && d.lastValid.value != 0.0
                                      then DecimalText(d.lastValid.value) else Null)
    ensures "input_device_class" in m &&
            m["input_device_class"] == Str(if d.inputDeviceClass.Some? then d.inputDeviceClass.value else "None")
    ensures "calculated_current_value" in m && m["calculated_current_value"] == DecimalOrNoneText(d.calcCurrent)
    ensures "calculated_last_value" in m && m["calculated_last_value"] == DecimalOrNoneText(d.calcLast)
  {
    var base := map[
      "native_value" := EncodeNative(d.native),
      "native_unit_of_measurement" := d.unit,
      "last_period" := DecimalText(d.lastPeriod),
      "last_valid_state" := if d.lastValid.Some? && d.lastValid.value != 0.0
                            then DecimalText(d.lastValid.value) else Null,
      "status" := d.status,
      "input_device_class" := Str(if d.inputDeviceClass.Some? then d.inputDeviceClass.value else "None"),
      "calculated_current_value" := DecimalOrNoneText(d.calcCurrent),
      "calculated_last_value" := DecimalOrNoneText(d.calcLast)
    ];
    if d.lastReset.Some? then base["last_reset" := Timestamp(d.lastReset.value)] else base
  }

  /** One decimal conversion: a value, `InvalidOperation`, or a `TypeError` on None. */
  datatype Parsed<T> = Value(v: T) | Invalid | Crash

  /** `Decimal(restored[key])`. */
  function ParseDecimal(m: map<string, Json>, key: string): Parsed<real>
  {
    if key !in m then Invalid
    else match m[key]
      case DecimalText(v) => Value(v)
      case Null => Crash
      case DecimalObject(_) => Crash
      case _ => Invalid
  }

  /** `Decimal(restored[key]) if restored.get(key) else None`. */
  function ParseOptionalDecimal(m: map<string, Json>, key: string): Parsed<Option<real>>
  {
    if key !in m || !Truthy(m[key]) then Value(None)
    else if m[key].DecimalText? then Value(Some(m[key].v))
    else if m[key].DecimalObject? then Crash
    else Invalid
  }

  /** `dt_util.parse_datetime(restored["last_reset"])`. */
  function ParseLastReset(m: map<string, Json>): Parsed<Option<int>>
  {
    if "last_reset" !in m then Invalid
    else match m["last_reset"]
      case Timestamp(t) => Value(Some(t))
      case Null => Crash
      case DecimalObject(_) => Crash
      case _ => Value(None)
  }

  /** `try_parse_enum(SensorDeviceClass, ...)`: a device class the host knows, else None. */
  function ParseDeviceClass(m: map<string, Json>, deviceClasses: set<string>): (c: Option<string>)
    ensures c.Some? ==> c.value in deviceClasses
  {
    if "input_device_class" in m && m["input_device_class"].Str? && m["input_device_class"].s in deviceClasses
    then Some(m["input_device_class"].s) else None
  }

  /**
   * `from_dict`: the base class's keys first, then this class's fields in
   * order, the first failure deciding. `deviceClasses` are the values of the
   * host's `SensorDeviceClass`.
   */
  function FromDict(m: map<string, Json>, deviceClasses: set<string>): (r: Restore)
    ensures "native_value" !in m || "native_unit_of_measurement" !in m ==> r == Rejected
    ensures r.Restored? ==> "last_period" in m && "last_reset" in m && "status" in m
    ensures "last_period" !in m || "last_reset" !in m || "status" !in m ==> !r.Restored?
    ensures r.Restored? ==>
              r.data.native == DecodeNative(m["native_value"]) &&
              r.data.unit == m["native_unit_of_measurement"] &&
              r.data.status == m["status"] &&
              r.data.inputDeviceClass == ParseDeviceClass(m, deviceClasses)
  {
    if "native_value" !in m || "native_unit_of_measurement" !in m then Rejected
    else
    var native := DecodeNative(m["native_value"]);
    var unit := m["native_unit_of_measurement"];
    match ParseDecimal(m, "last_period")
    case Crash => Raises
    case Invalid => Rejected
    case Value(lastPeriod) =>
      match ParseLastReset(m)
      case Crash => Raises
      case Invalid => Rejected
      case Value(lastReset) =>
        match ParseOptionalDecimal(m, "last_valid_state")
        case Crash => Raises
        case Invalid => Rejected
        case Value(lastValid) =>
          if "status" !in m then Rejected
          else
            var deviceClass := ParseDeviceClass(m, deviceClasses);
            match ParseOptionalDecimal(m, "calculated_current_value")
            case Crash => Raises
            case Invalid => Rejected
            case Value(calcCurrent) =>
              match ParseOptionalDecimal(m, "calculated_last_value")
              case Crash => Raises
              case Invalid => Rejected
              case Value(calcLast) =>
                Restored(StoredData(native, unit, lastPeriod, lastReset, lastValid, m["status"],
                                    deviceClass, calcCurrent, calcLast))
  }

  /**
   * Storing and restoring gives the record back when it has a last-reset time,
   * both calculated values and a native value that is not itself a tagged
   * object, and its device class, if any, is one the host knows; only a last
   * valid state of 0 comes back as None.
   */
  lemma RoundTrip(d: StoredData, deviceClasses: set<string>)
    requires d.lastReset.Some? && d.calcCurrent.Some? && d.calcLast.Some? && !d.native.DecimalObject?
    requires d.inputDeviceClass.Some? ==> d.inputDeviceClass.value in deviceClasses
    requires "None" !in deviceClasses
    ensures FromDict(AsDict(d), deviceClasses) ==
              Restored(d.(lastValid := if d.lastValid == Some(0.0) then None else d.lastValid))
  {
    var m := AsDict(d);
    DecodeEncodeNative(d.native);
    assert ParseDeviceClass(m, deviceClasses) == d.inputDeviceClass;
  }

  /**
   * `async_added_to_hass` with a restored record: the value, last period, last
   * reset and last valid state are taken over; the meter collects again when
   * the status says so and keeps its flag otherwise; a missing calculated value
   * becomes 0. None where `Decimal(native_value)` raises on a value that is
   * neither None nor a decimal.
   */
  function RestoreInto(s: MeterState, d: StoredData): (r: Option<MeterState>)
    ensures r.None? <==> !(d.native.Null? || d.native.DecimalText?)
    ensures r.Some? ==>
              r.value.native == (if d.native.DecimalText? then Some(d.native.v) else None) &&
              r.value.lastPeriod == d.lastPeriod && r.value.lastReset == d.lastReset &&
              r.value.lastValid == d.lastValid &&
              r.value.collecting == (d.status == Str(Collecting) || s.collecting) &&
              r.value.calcCurrent == (if d.calcCurrent.Some? then d.calcCurrent.value else 0.0) &&
              r.value.calcLast == (if d.calcLast.Some? then d.calcLast.value else 0.0) &&
              r.value.available == s.available
  {
    if !(d.native.Null? || d.native.DecimalText?) then None
    else
      Some(s.(native := if d.native.DecimalText? then Some(d.native.v) else None,
              lastPeriod := d.lastPeriod, lastReset := d.lastReset, lastValid := d.lastValid,
              collecting := if d.status == Str(Collecting) then true else s.collecting,
              calcCurrent := if d.calcCurrent.Some? then d.calcCurrent.value else 0.0,
              calcLast := if d.calcLast.Some? then d.calcLast.value else 0.0))
  }

  /**
   * Every meter with a last-reset time survives a store/restore cycle into a
   * meter that is not yet collecting (as `__init__` leaves it): its running
   * total, last period, last reset, calculated values and status come back,
   * and so does its last valid state unless that was 0.
   */
  lemma MeterStateRoundTrip(s: MeterState, t: MeterState, unit: Json, deviceClass: Option<string>,
                            deviceClasses: set<string>)
    requires s.lastReset.Some?
    requires deviceClass.Some? ==> deviceClass.value in deviceClasses
    requires "None" !in deviceClasses
    requires !t.collecting
    ensures var r := FromDict(AsDict(ExtraRestoreStateData(s, unit, deviceClass)), deviceClasses);
            r.Restored? && r.data.native == NativeOf(s.native) && r.data.unit == unit &&
            r.data.inputDeviceClass == deviceClass &&
            r.data.lastPeriod == s.lastPeriod && r.data.lastReset == s.lastReset &&
            r.data.calcCurrent == Some(s.calcCurrent) && r.data.calcLast == Some(s.calcLast) &&
            r.data.status == Str(if s.collecting then Collecting else Paused) &&
            RestoreInto(t, r.data) ==
              Some(s.(lastValid := if s.lastValid == Some(0.0) then None else s.lastValid,
                      available := t.available))
  {
    var d := ExtraRestoreStateData(s, unit, deviceClass);
    RoundTrip(d, deviceClasses);
    var r := FromDict(AsDict(d), deviceClasses);
    assert Collecting != Paused;
  }

  /** A record without a last-reset time cannot be restored: `as_dict` omits the key. */
  lemma MissingLastResetIsRejected(d: StoredData, deviceClasses: set<string>)
    requires d.lastReset.None?
    ensures FromDict(AsDict(d), deviceClasses) == Rejected
  {
    assert "last_reset" !in AsDict(d);
  }

  /** A record whose calculated value is None is stored as "None" and rejected on restore. */
  lemma NoneCalculatedValueIsRejected(d: StoredData, deviceClasses: set<string>)
    requires d.lastReset.Some? && d.calcCurrent.None?
    ensures FromDict(AsDict(d), deviceClasses) == Rejected
  {
    var m := AsDict(d);
    assert m["calculated_current_value"] == Str("None");
    assert m["last_reset"] == Timestamp(d.lastReset.value);
  }

  /** A missing key or a malformed decimal gives None, never a record. */
  lemma MalformedIsNotRestored(m: map<string, Json>, deviceClasses: set<string>)
    requires "last_period" !in m || !m["last_period"].DecimalText? || "status" !in m
    ensures !FromDict(m, deviceClasses).Restored?
  {
  }
}
