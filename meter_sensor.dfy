// Utility meter (next gen): the accumulating meter sensor (`UtilityMeterSensor`
// in sensor.py) as a state machine over exact decimal readings.

module MeterSensor {
  import opened Common
  import opened MeterConst

  /**
   * The state of an entity as the meter sees it: the two special states, a
   * numeric reading, or text that `Decimal(...)` rejects.
   */
  datatype EntityState = Unavailable | Unknown | Reading(v: real) | NotANumber

  /** `_validate_state`: the decimal value of a state, if it has one. */
  function ValidateState(st: Option<EntityState>): (r: Option<real>)
    ensures r.None? <==> st.None? || st.value in {Unavailable, Unknown, NotANumber}
    ensures r.Some? ==> st == Some(Reading(r.value))
  {
    if st.Some? && st.value.Reading? then Some(st.value.v) else None
  }

  /** The settings a meter is built with (`__init__` after normalisation). */
  datatype MeterConfig = MeterConfig(
    deltaValues: bool,
    netConsumption: bool,
    periodicallyResetting: bool,
    alwaysAvailable: bool,
    calibrateValue: real,
    calibrateCalcValue: real,
    multiplier: real,
    calcSource: Option<string>,
    tariff: Option<string>,
    tariffEntity: Option<string>,
    entityId: Option<string>,
    period: Option<Cycle>,
    cronPattern: Option<string>)

  /**
   * `__init__`: a zero or missing multiplier becomes 1, and a predefined cycle
   * replaces the cron pattern by the cycle's template filled from the offset.
   */
  function NewConfig(deltaValues: bool, netConsumption: bool, periodicallyResetting: bool,
                     alwaysAvailable: bool, calibrateValue: real, calibrateCalcValue: real,
                     multiplier: Option<real>, calcSource: Option<string>, tariff: Option<string>,
                     tariffEntity: Option<string>, entityId: Option<string>,
                     period: Option<Cycle>, offset: Offset, cronPattern: Option<string>): (c: MeterConfig)
    ensures c.multiplier != 0.0
    ensures multiplier.Some? && multiplier.value != 0.0 ==> c.multiplier == multiplier.value
    ensures period.Some? ==> c.cronPattern.Some? && CountChar(c.cronPattern.value, ' ') == 4
    ensures period.None? ==> c.cronPattern == cronPattern
  {
    MeterConfig(deltaValues, netConsumption, periodicallyResetting, alwaysAvailable,
                calibrateValue, calibrateCalcValue,
                if multiplier.Some? && multiplier.value != 0.0 then multiplier.value else 1.0,
                calcSource, tariff, tariffEntity, entityId, period,
                if period.Some? then Some(CronPattern(period.value, offset)) else cronPattern)
  }

  /** `calculate_adjustment`: how much a new reading adds to the total. */
  function CalculateAdjustment(cfg: MeterConfig, lastValid: Option<real>,
                               oldState: Option<EntityState>, newState: EntityState): (r: Option<real>)
    ensures !newState.Reading? ==> r.None?
    ensures newState.Reading? && cfg.deltaValues ==> r == Some(newState.v)
    ensures newState.Reading? && !cfg.deltaValues && !cfg.periodicallyResetting && lastValid.Some? ==>
              r == Some(newState.v - lastValid.value)
    ensures newState.Reading? && !cfg.deltaValues && (cfg.periodicallyResetting || lastValid.None?) ==>
              r == (if oldState.Some? && oldState.value.Reading? then Some(newState.v - oldState.value.v) else None)
  {
    match ValidateState(Some(newState))
    case None => None
    case Some(newVal) =>
      if cfg.deltaValues then Some(newVal)
      else if !cfg.periodicallyResetting && lastValid.Some? then Some(newVal - lastValid.value)
      else match ValidateState(oldState)
        case Some(oldVal) => Some(newVal - oldVal)
        case None => None
  }

  /** The observable state of one meter. */
  datatype MeterState = MeterState(
    native: Option<real>,
    lastValid: Option<real>,
    lastPeriod: real,
    lastReset: Option<int>,
    calcCurrent: real,
    calcLast: real,
    collecting: bool,
    available: bool)

  /** A fresh meter: no value yet, last period 0, last reset at construction time. */
  function InitialState(now: int): MeterState
  {
    MeterState(None, None, 0.0, Some(now), 0.0, 0.0, false, true)
  }

  /** `start`: the value and the calculated value begin at their calibration offsets. */
  function Started(cfg: MeterConfig, s: MeterState): (r: MeterState)
    ensures r.native == Some(cfg.calibrateValue) && r.calcCurrent == cfg.calibrateCalcValue
    ensures r.(native := s.native, calcCurrent := s.calcCurrent) == s
  {
    s.(native := Some(cfg.calibrateValue), calcCurrent := cfg.calibrateCalcValue)
  }

  /** Whether a price state can be used: neither missing, unavailable nor unknown. */
  predicate PriceUsable(calcState: Option<EntityState>)
  {
    calcState.Some? && calcState.value != Unavailable && calcState.value != Unknown
  }

  /**
   * The calculated total after an accepted adjustment: price × adjustment ×
   * multiplier rounded to PRECISION places is added; a price that is not a
   * number resets the calculated total to 0.
   */
  function CalcStep(cfg: MeterConfig, current: real, calcState: Option<EntityState>, adj: real): real
  {
    if cfg.calcSource.None? || !PriceUsable(calcState) then current
    else if calcState.value.Reading? then
      current + RoundHalfEven(calcState.value.v * adj * cfg.multiplier, Precision)
    else 0.0
  }

  /** The source entity exists and is not unavailable. */
  predicate SourcePresent(source: Option<EntityState>)
  {
    source.Some? && source.value != Unavailable
  }

  /** The event carries a usable new reading and the source is present. */
  predicate Accepts(source: Option<EntityState>, newState: Option<EntityState>)
  {
    SourcePresent(source) && ValidateState(newState).Some?
  }

  /** `async_reading` for one meter (the meter is among the sensors it starts). */
  function ReadingStep(cfg: MeterConfig, s: MeterState, source: Option<EntityState>,
                       oldState: Option<EntityState>, newState: Option<EntityState>,
                       calcState: Option<EntityState>): MeterState
  {
    if !SourcePresent(source) then
      (if cfg.alwaysAvailable then s else s.(available := false))
    else if !Accepts(source, newState) then s
    else AcceptStep(cfg, if s.native.None? then Started(cfg, s) else s, oldState, newState.value, calcState)
  }

  /** A valid reading on a started meter: the adjustment is added when allowed, and the reading becomes the last valid one. */
  function AcceptStep(cfg: MeterConfig, s: MeterState, oldState: Option<EntityState>, newState: EntityState,
                      calcState: Option<EntityState>): MeterState
    requires s.native.Some?
  {
    var adj := CalculateAdjustment(cfg, s.lastValid, oldState, newState);
    var s2 :=
      if adj.Some? && (cfg.netConsumption || adj.value >= 0.0) then
        s.(native := Some(s.native.value + adj.value),
           calcCurrent := CalcStep(cfg, s.calcCurrent, calcState, adj.value))
      else s;
    s2.(lastValid := ValidateState(Some(newState)))
  }

  /** A lost or unavailable source only ever touches availability. */
  lemma SourceLossOnlyAffectsAvailability(cfg: MeterConfig, s: MeterState, source: Option<EntityState>,
                                          oldState: Option<EntityState>, newState: Option<EntityState>,
                                          calcState: Option<EntityState>)
    requires !SourcePresent(source)
    ensures ReadingStep(cfg, s, source, oldState, newState, calcState).(available := s.available) == s
    ensures ReadingStep(cfg, s, source, oldState, newState, calcState).available == (s.available && cfg.alwaysAvailable)
  {
  }

  /** A missing or invalid new reading changes nothing at all. */
  lemma InvalidReadingChangesNothing(cfg: MeterConfig, s: MeterState, source: Option<EntityState>,
                                     oldState: Option<EntityState>, newState: Option<EntityState>,
                                     calcState: Option<EntityState>)
    requires SourcePresent(source)
    requires newState.None? || !newState.value.Reading?
    ensures ReadingStep(cfg, s, source, oldState, newState, calcState) == s
  {
  }

  /** A valid reading is always remembered, and the meter has a value afterwards. */
  lemma ValidReadingIsRemembered(cfg: MeterConfig, s: MeterState, source: Option<EntityState>,
                                 oldState: Option<EntityState>, v: real,
                                 calcState: Option<EntityState>)
    requires SourcePresent(source)
    ensures ReadingStep(cfg, s, source, oldState, Some(Reading(v)), calcState).lastValid == Some(v)
    ensures ReadingStep(cfg, s, source, oldState, Some(Reading(v)), calcState).native.Some?
  {
  }

  /** Without net consumption the total never goes down. */
  lemma NoNetConsumptionNeverDecreases(cfg: MeterConfig, s: MeterState, source: Option<EntityState>,
                                       oldState: Option<EntityState>, newState: Option<EntityState>,
                                       calcState: Option<EntityState>)
    requires !cfg.netConsumption && s.native.Some?
    ensures ReadingStep(cfg, s, source, oldState, newState, calcState).native.Some?
    ensures ReadingStep(cfg, s, source, oldState, newState, calcState).native.value >= s.native.value
  {
  }

  /** The first accepted reading starts the meter at its calibration value. */
  lemma FirstReadingStartsAtCalibration(cfg: MeterConfig, s: MeterState, source: Option<EntityState>,
                                        oldState: Option<EntityState>, v: real,
                                        calcState: Option<EntityState>)
    requires SourcePresent(source) && s.native.None?
    ensures var r := ReadingStep(cfg, s, source, oldState, Some(Reading(v)), calcState);
            var adj := CalculateAdjustment(cfg, s.lastValid, oldState, Reading(v));
            r.native == Some(if adj.Some? && (cfg.netConsumption || adj.value >= 0.0)
                             then cfg.calibrateValue + adj.value else cfg.calibrateValue)
  {
  }

  // ---- runs of readings -------------------------------------------------------

  /** Feeds readings one after another, each also being the source's current state. */
  function Feed(cfg: MeterConfig, s: MeterState, xs: seq<real>): MeterState
    decreases |xs|
  {
    if |xs| == 0 then s
    else Feed(cfg, ReadingStep(cfg, s, Some(Reading(xs[0])), None, Some(Reading(xs[0])), None), xs[1..])
  }

  function Sum(xs: seq<real>): real
  {
    if |xs| == 0 then 0.0 else xs[0] + Sum(xs[1..])
  }

  /**
   * Absolute readings with net consumption: the total grows by exactly the
   * difference between the last reading and the last remembered one.
   */
  lemma {:induction false} AbsoluteRunTotals(cfg: MeterConfig, s: MeterState, xs: seq<real>)
    requires !cfg.deltaValues && !cfg.periodicallyResetting && cfg.netConsumption
    requires s.native.Some? && s.lastValid.Some? && |xs| > 0
    ensures Feed(cfg, s, xs).native == Some(s.native.value + xs[|xs| - 1] - s.lastValid.value)
    ensures Feed(cfg, s, xs).lastValid == Some(xs[|xs| - 1])
    decreases |xs|
  {
    var s1 := ReadingStep(cfg, s, Some(Reading(xs[0])), None, Some(Reading(xs[0])), None);
    assert s1.native == Some(s.native.value + xs[0] - s.lastValid.value);
    assert s1.lastValid == Some(xs[0]);
    if |xs| > 1 {
      AbsoluteRunTotals(cfg, s1, xs[1..]);
    }
  }

  /** Delta readings with net consumption: the total grows by their sum. */
  lemma {:induction false} DeltaRunTotals(cfg: MeterConfig, s: MeterState, xs: seq<real>)
    requires cfg.deltaValues && cfg.netConsumption && s.native.Some?
    ensures Feed(cfg, s, xs).native == Some(s.native.value + Sum(xs))
    decreases |xs|
  {
    if |xs| > 0 {
      var s1 := ReadingStep(cfg, s, Some(Reading(xs[0])), None, Some(Reading(xs[0])), None);
      DeltaRunTotals(cfg, s1, xs[1..]);
    }
  }

  /** The sum of the non-negative readings: what a delta meter without net consumption counts. */
  function NonNegativeSum(xs: seq<real>): real
  {
    if |xs| == 0 then 0.0 else (if xs[0] >= 0.0 then xs[0] else 0.0) + NonNegativeSum(xs[1..])
  }

  /** The sum of the upward steps from `prev` through the readings: what an absolute meter without net consumption counts. */
  function Rises(prev: real, xs: seq<real>): real
    decreases |xs|
  {
    if |xs| == 0 then 0.0 else (if xs[0] >= prev then xs[0] - prev else 0.0) + Rises(xs[0], xs[1..])
  }

  /**
   * Absolute readings without net consumption: each step down is dropped, so
   * the total grows by the sum of the upward steps from the last remembered
   * reading.
   */
  lemma {:induction false} AbsoluteRunTotalsWithoutNet(cfg: MeterConfig, s: MeterState, xs: seq<real>)
    requires !cfg.deltaValues && !cfg.periodicallyResetting && !cfg.netConsumption
    requires s.native.Some? && s.lastValid.Some?
    ensures Feed(cfg, s, xs).native == Some(s.native.value + Rises(s.lastValid.value, xs))
    ensures |xs| > 0 ==> Feed(cfg, s, xs).lastValid == Some(xs[|xs| - 1])
    decreases |xs|
  {
    if |xs| > 0 {
      var s1 := ReadingStep(cfg, s, Some(Reading(xs[0])), None, Some(Reading(xs[0])), None);
      assert s1.native == Some(s.native.value + (if xs[0] >= s.lastValid.value then xs[0] - s.lastValid.value else 0.0));
      assert s1.lastValid == Some(xs[0]);
      AbsoluteRunTotalsWithoutNet(cfg, s1, xs[1..]);
    }
  }

  /** Delta readings without net consumption: the total grows by the sum of the non-negative ones. */
  lemma {:induction false} DeltaRunTotalsWithoutNet(cfg: MeterConfig, s: MeterState, xs: seq<real>)
    requires cfg.deltaValues && !cfg.netConsumption && s.native.Some?
    ensures Feed(cfg, s, xs).native == Some(s.native.value + NonNegativeSum(xs))
    decreases |xs|
  {
    if |xs| > 0 {
      var s1 := ReadingStep(cfg, s, Some(Reading(xs[0])), None, Some(Reading(xs[0])), None);
      DeltaRunTotalsWithoutNet(cfg, s1, xs[1..]);
    }
  }

  // ---- tariff switching, reset, calibration --------------------------------------

  /** `_change_status`: collect iff the meter's tariff is the selected one; forget the last reading. */
  function ChangeStatusStep(cfg: MeterConfig, s: MeterState, tariff: string): (r: MeterState)
    ensures r.collecting <==> cfg.tariff == Some(tariff)
    ensures r.lastValid.None?
    ensures r.(collecting := s.collecting, lastValid := s.lastValid) == s
  {
    s.(collecting := cfg.tariff == Some(tariff), lastValid := None)
  }

  /**
   * After a tariff switch an absolute meter measures the next step from the
   * event's old state, not from the reading it had before the switch.
   */
  lemma TariffSwitchMeasuresFromOldState(cfg: MeterConfig, s: MeterState, tariff: string, o: real, n: real)
    requires !cfg.deltaValues && cfg.netConsumption && s.native.Some?
    ensures var r := ReadingStep(cfg, ChangeStatusStep(cfg, s, tariff),
                                 Some(Reading(n)), Some(Reading(o)), Some(Reading(n)), None);
            r.native == Some(s.native.value + (n - o)) && r.lastValid == Some(n)
  {
  }

  /** The reset is ignored when it is addressed to another meter. */
  predicate ResetApplies(cfg: MeterConfig, entityId: Option<string>)
  {
    !(cfg.tariffEntity.Some? && cfg.tariffEntity != entityId) &&
    !(cfg.tariffEntity.None? && entityId.Some? && cfg.entityId != entityId)
  }

  /** `async_reset_meter`. */
  function ResetStep(cfg: MeterConfig, s: MeterState, entityId: Option<string>, now: int): (r: MeterState)
    ensures !ResetApplies(cfg, entityId) ==> r == s
    ensures ResetApplies(cfg, entityId) ==>
              r.native == Some(cfg.calibrateValue) && r.calcCurrent == cfg.calibrateCalcValue &&
              r.lastPeriod == (if s.native.Some? then s.native.value else 0.0) &&
              r.calcLast == (if cfg.calcSource.Some? then s.calcCurrent else s.calcLast) &&
              r.lastReset == Some(now) &&
              r.lastValid == s.lastValid && r.collecting == s.collecting && r.available == s.available
  {
    if !ResetApplies(cfg, entityId) then s
    else
      s.(lastReset := Some(now),
         lastPeriod := if s.native.Some? && s.native.value != 0.0 then s.native.value else 0.0,
         calcLast := if cfg.calcSource.Some? then s.calcCurrent else s.calcLast,
         calcCurrent := cfg.calibrateCalcValue,
         native := Some(cfg.calibrateValue))
  }

  /**
   * A delta meter that starts a period at its calibration value reports
   * calibration + the period's counted readings as last period at the next
   * reset (all of them with net consumption, the non-negative ones without),
   * and starts the new period from calibration again.
   */
  lemma PeriodIsReportedAtReset(cfg: MeterConfig, s: MeterState, xs: seq<real>, entityId: Option<string>, now: int)
    requires cfg.deltaValues
    requires s.native == Some(cfg.calibrateValue)
    requires ResetApplies(cfg, entityId)
    ensures ResetStep(cfg, Feed(cfg, s, xs), entityId, now).lastPeriod ==
              cfg.calibrateValue + (if cfg.netConsumption then Sum(xs) else NonNegativeSum(xs))
    ensures ResetStep(cfg, Feed(cfg, s, xs), entityId, now).native == s.native
  {
    if cfg.netConsumption {
      DeltaRunTotals(cfg, s, xs);
    } else {
      DeltaRunTotalsWithoutNet(cfg, s, xs);
    }
  }

  /** `async_calibrate`. */
  function CalibrateStep(s: MeterState, v: real): (r: MeterState)
    ensures r.native == Some(v) && r.(native := s.native) == s
  {
    s.(native := Some(v))
  }

  datatype StateClass = Total | TotalIncreasing

  /** `state_class`: TOTAL with net consumption, otherwise TOTAL_INCREASING. */
  function MeterStateClass(cfg: MeterConfig): StateClass
  {
    if cfg.netConsumption then Total else TotalIncreasing
  }

  /** A meter that announces TOTAL_INCREASING never decreases on a reading. */
  lemma TotalIncreasingIsHonest(cfg: MeterConfig, s: MeterState, source: Option<EntityState>,
                                oldState: Option<EntityState>, newState: Option<EntityState>,
                                calcState: Option<EntityState>)
    requires MeterStateClass(cfg) == TotalIncreasing && s.native.Some?
    ensures ReadingStep(cfg, s, source, oldState, newState, calcState).native.value >= s.native.value
  {
    NoNetConsumptionNeverDecreases(cfg, s, source, oldState, newState, calcState);
  }

  // ---- the meter object ----------------------------------------------------------

  class UtilityMeter {
    const cfg: MeterConfig
    var native: Option<real>
    var lastValid: Option<real>
    var lastPeriod: real
    var lastReset: Option<int>
    var calcCurrent: real
    var calcLast: real
    var collecting: bool
    var available: bool

    function State(): MeterState
      reads this
    {
      MeterState(native, lastValid, lastPeriod, lastReset, calcCurrent, calcLast, collecting, available)
    }

    /** `__init__`, with the clock reading `now` as the first last-reset time. */
    constructor(config: MeterConfig, now: int)
      ensures cfg == config
      ensures State() == InitialState(now)
    {
      cfg := config;
      native := None;
      lastValid := None;
      lastPeriod := 0.0;
      lastReset := Some(now);
      calcCurrent := 0.0;
      calcLast := 0.0;
      collecting := false;
      available := true;
    }

    method Start()
      modifies this
      ensures State() == Started(cfg, old(State()))
    {
      native := Some(cfg.calibrateValue);
      calcCurrent := cfg.calibrateCalcValue;
    }

    /** The start loop of `async_reading`: every meter of the group is started. */
    static method StartAll(group: seq<UtilityMeter>)
      modifies set m | m in group
      ensures forall m :: m in group ==> m.State() == Started(m.cfg, old(m.State()))
    {
      var i := 0;
      while i < |group|
        invariant 0 <= i <= |group|
        invariant forall m :: m in group ==>
                    m.State() == (if m in group[..i] then Started(m.cfg, old(m.State())) else old(m.State()))
      {
        group[i].Start();
        i := i + 1;
      }
      assert group[..|group|] == group;
    }

    /**
     * `async_reading`. `group` is the list of meters of the same configuration
     * entry; when this meter has no value yet every one of them is started.
     */
    method Reading(group: seq<UtilityMeter>, source: Option<EntityState>,
                   oldState: Option<EntityState>, newState: Option<EntityState>,
                   calcState: Option<EntityState>)
      requires this in group
      modifies set m | m in group
      ensures State() == ReadingStep(cfg, old(State()), source, oldState, newState, calcState)
      ensures forall m :: m in group && m != this ==>
                m.State() == (if Accepts(source, newState) && old(native).None?
                              then Started(m.cfg, old(m.State())) else old(m.State()))
    {
      if !SourcePresent(source) {
        if !cfg.alwaysAvailable {
          available := false;
        }
        return;
      }
      if newState.None? {
        return;
      }
      var newVal := ValidateState(newState);
      if newVal.None? {
        return;
      }
      if native.None? {
        StartAll(group);
      }
      Accept(oldState, newState.value, calcState);
    }

    /** The rest of `async_reading` once the meter is started: adjust, then remember the reading. */
    method Accept(oldState: Option<EntityState>, newState: EntityState, calcState: Option<EntityState>)
      requires native.Some?
      modifies this
      ensures State() == AcceptStep(cfg, old(State()), oldState, newState, calcState)
    {
      var adj := CalculateAdjustment(cfg, lastValid, oldState, newState);
      if adj.Some? && (cfg.netConsumption || adj.value >= 0.0) {
        native := Some(native.value + adj.value);
        calcCurrent := CalcStep(cfg, calcCurrent, calcState, adj.value);
      }
      lastValid := ValidateState(Some(newState));
    }

    /** `_change_status`. */
    method ChangeStatus(tariff: string)
      modifies this
      ensures State() == ChangeStatusStep(cfg, old(State()), tariff)
    {
      collecting := cfg.tariff == Some(tariff);
      lastValid := None;
    }

    /** `async_reset_meter`, with the clock reading `now`. */
    method ResetMeter(entityId: Option<string>, now: int)
      modifies this
      ensures State() == ResetStep(cfg, old(State()), entityId, now)
    {
      if cfg.tariffEntity.Some? && cfg.tariffEntity != entityId {
        return;
      }
      if cfg.tariffEntity.None? && entityId.Some? && cfg.entityId != entityId {
        return;
      }
      lastReset := Some(now);
      lastPeriod := if native.Some? && native.value != 0.0 then native.value else 0.0;
      if cfg.calcSource.Some? {
        calcLast := calcCurrent;
      }
      calcCurrent := cfg.calibrateCalcValue;
      native := Some(cfg.calibrateValue);
    }

    /** `async_calibrate`. */
    method Calibrate(v: real)
      modifies this
      ensures State() == CalibrateStep(old(State()), v)
    {
      native := Some(v);
    }
  }
}
