// Utility meter (next gen): the calculated (cost) sensor that mirrors one
// attribute of a meter (`UtilityMeterCalculatedSensor` in sensor.py), and the
// meter attributes it reads.

module MeterCalculated {
  import opened Common
  import opened MeterConst
  import opened MeterSensor

  /** An attribute value: text of a decimal, other text, or a number. */
  datatype AttrValue = AttrDecimalText(v: real) | AttrText(s: string) | AttrNumber(n: real)

  /** The watched entity's state and attributes, as the state-change event carries them. */
  datatype Snapshot = Snapshot(state: EntityState, attributes: map<string, AttrValue>)

  /** The calculated sensor's value: none, the text "unavailable", or a number. */
  datatype CalcNative = NoValue | UnavailableText | Value(v: real)

  datatype CalcState = CalcState(native: CalcNative, collectingStatus: Option<AttrValue>, hasLogged: bool)

  const CalcCurrentAttr := "current_period_calculated_value"
  const CalcLastAttr := "last_period_calculated_value"

  /**
   * The part of a meter's `extra_state_attributes` that the calculated sensor
   * reads: the status, and the rounded calculated values when a price source
   * is configured.
   */
  function MeterAttributes(cfg: MeterConfig, s: MeterState): (a: map<string, AttrValue>)
    ensures "status" in a && a["status"] == AttrText(if s.collecting then Collecting else Paused)
    ensures CalcCurrentAttr in a <==> cfg.calcSource.Some?
  {
    var status := map["status" := AttrText(if s.collecting then Collecting else Paused)];
    if cfg.calcSource.Some? then
      status[CalcCurrentAttr := AttrDecimalText(RoundHalfEven(s.calcCurrent, Precision))]
            [CalcLastAttr := AttrDecimalText(RoundHalfEven(s.calcLast, Precision))]
    else status
  }

  /** `_async_attribute_sensor_state_listener`. */
  function ListenStep(attribute: string, s: CalcState, newState: Option<Snapshot>, updateState: bool): (r: CalcState)
    ensures r.native.Value? ==> newState.Some? && attribute in newState.value.attributes
    ensures newState.None? || newState.value.state in {Unavailable, Unknown} ==>
              r.native == NoValue && r.hasLogged == s.hasLogged &&
              r.collectingStatus == (if updateState then Some(AttrText("unavailable")) else s.collectingStatus)
    ensures newState.Some? && newState.value.state !in {Unavailable, Unknown} &&
            attribute !in newState.value.attributes ==>
              r.native == UnavailableText && r.hasLogged
  {
    var s0 := s.(native := NoValue);
    if newState.None? || newState.value.state == Unavailable || newState.value.state == Unknown then
      (if updateState then s0.(collectingStatus := Some(AttrText("unavailable"))) else s0)
    else if attribute !in newState.value.attributes then
      s0.(hasLogged := true, native := UnavailableText)
    else
      var s1 := s0.(hasLogged := false);
      match newState.value.attributes[attribute]
      case AttrText(_) => s1.(native := UnavailableText)
      case AttrDecimalText(v) => ListenStatus(s1.(native := Value(v)), newState.value)
      case AttrNumber(n) => ListenStatus(s1.(native := Value(n)), newState.value)
  }

  /** The status attribute, when present, is copied. */
  function ListenStatus(s: CalcState, snap: Snapshot): CalcState
  {
    if "status" in snap.attributes then s.(collectingStatus := Some(snap.attributes["status"])) else s
  }

  /**
   * Watching a meter with a price source, the calculated sensor shows the
   * meter's calculated total rounded to PRECISION places and its status.
   */
  lemma MirrorsMeter(cfg: MeterConfig, m: MeterState, x: EntityState, s: CalcState, updateState: bool)
    requires cfg.calcSource.Some? && x != Unavailable && x != Unknown
    ensures var r := ListenStep(CalcCurrentAttr, s, Some(Snapshot(x, MeterAttributes(cfg, m))), updateState);
            r.native == Value(RoundHalfEven(m.calcCurrent, Precision)) &&
            r.collectingStatus == Some(AttrText(if m.collecting then Collecting else Paused)) &&
            !r.hasLogged
  {
    var a := MeterAttributes(cfg, m);
    assert a[CalcCurrentAttr] == AttrDecimalText(RoundHalfEven(m.calcCurrent, Precision));
  }

  /** Without a price source the meter publishes nothing to mirror. */
  lemma NothingToMirrorWithoutPrice(cfg: MeterConfig, m: MeterState, x: EntityState, s: CalcState, updateState: bool)
    requires cfg.calcSource.None? && x != Unavailable && x != Unknown
    ensures ListenStep(CalcCurrentAttr, s, Some(Snapshot(x, MeterAttributes(cfg, m))), updateState).native == UnavailableText
  {
  }

  class CalculatedSensor {
    const attribute: string
    var native: CalcNative
    var collectingStatus: Option<AttrValue>
    var hasLogged: bool

    function State(): CalcState
      reads this
    {
      CalcState(native, collectingStatus, hasLogged)
    }

    constructor(attribute: string)
      ensures this.attribute == attribute
      ensures State() == CalcState(NoValue, None, false)
    {
      this.attribute := attribute;
      native := NoValue;
      collectingStatus := None;
      hasLogged := false;
    }

    method Listen(newState: Option<Snapshot>, updateState: bool)
      modifies this
      ensures State() == ListenStep(attribute, old(State()), newState, updateState)
    {
      native := NoValue;
      if newState.None? || newState.value.state == Unavailable || newState.value.state == Unknown {
        if updateState {
          collectingStatus := Some(AttrText("unavailable"));
        }
        return;
      }
      if attribute !in newState.value.attributes {
        hasLogged := true;
        native := UnavailableText;
        return;
      }
      hasLogged := false;
      var value := newState.value.attributes[attribute];
      if value.AttrText? {
        native := UnavailableText;
        return;
      }
      native := if value.AttrDecimalText? then Value(value.v) else Value(value.n);
      if "status" in newState.value.attributes {
        collectingStatus := Some(newState.value.attributes["status"]);
      }
    }
  }
}
