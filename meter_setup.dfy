// Utility meter (next gen): the meter-by-tariff fan-out of `async_setup_entry`
// in sensor.py, which decides which meter and calculated sensors a config
// entry creates and how they are named.

module MeterSetup {
  import opened Common
  import opened MeterConst
  import opened MeterText

  /**
   * The stored meter type after "none" is turned into None: no cycle (a cron
   * meter), one predefined cycle, or the list a multi-cycle entry stores.
   */
  datatype MeterType = NoType | Single(c: Cycle) | Multi(cs: seq<Cycle>)

  /**
   * The options the fan-out reads. An apply field names the cycle that
   * receives the calibration value; "none" and a missing field both mean None.
   */
  datatype SetupOptions = SetupOptions(
    title: string,
    entryId: string,
    meterType: MeterType,
    tariffs: seq<string>,
    createCalc: bool,
    calibrateApply: Option<Cycle>,
    calibrateCalcApply: Option<Cycle>,
    calibrateValue: real,
    calibrateCalcValue: real)

  /** One meter sensor to create. */
  datatype MeterPlan = MeterPlan(
    name: string,
    uniqueId: string,
    period: Option<Cycle>,
    tariff: Option<string>,
    calibrateValue: real,
    calibrateCalcValue: real)

  /** One calculated sensor to create (it always mirrors the current calculated value). */
  datatype CalcPlan = CalcPlan(
    entityId: string,
    name: string,
    uniqueId: string,
    period: Option<Cycle>,
    tariff: Option<string>,
    calibrateCalcValue: real)

  /** No tariffs means one meter not gated by a tariff; otherwise one per tariff. */
  function TariffChoices(tariffs: seq<string>): (r: seq<Option<string>>)
    ensures |r| == if |tariffs| == 0 then 1 else |tariffs|
    ensures |tariffs| == 0 ==> r == [None]
    ensures |tariffs| > 0 ==> forall j :: 0 <= j < |r| ==> r[j] == Some(tariffs[j])
  {
    if |tariffs| == 0 then [None] else seq(|tariffs|, j requires 0 <= j < |tariffs| => Some(tariffs[j]))
  }

  function Suffix(sep: string, t: Option<string>): string
  {
    if t.Some? then sep + t.value else ""
  }

  /** A calibration value goes to a cycle's meters only when the apply field names that cycle. */
  function AppliedTo(apply: Option<Cycle>, c: Cycle, v: real): real
  {
    if apply == Some(c) then v else 0.0
  }

  // ---- one meter of a multi-cycle entry ---------------------------------------

  function MultiMeter(o: SetupOptions, c: Cycle, t: Option<string>): (p: MeterPlan)
    ensures p.period == Some(c) && p.tariff == t
    ensures p.name == o.title + " " + Name(c) + Suffix(" ", t)
    ensures p.uniqueId == o.entryId + "_" + Name(c) + Suffix("_", t)
  {
    MeterPlan(o.title + " " + Name(c) + Suffix(" ", t),
              o.entryId + "_" + Name(c) + Suffix("_", t),
              Some(c), t,
              AppliedTo(o.calibrateApply, c, o.calibrateValue),
              AppliedTo(o.calibrateCalcApply, c, o.calibrateCalcValue))
  }

  function MultiCalc(o: SetupOptions, c: Cycle, t: Option<string>): (p: CalcPlan)
    ensures p.period == Some(c) && p.tariff == t
    ensures p.uniqueId == p.name == o.title + " " + Name(c) + Suffix(" ", t) + " Calculated"
  {
    var name := o.title + " " + Name(c) + Suffix(" ", t) + " Calculated";
    CalcPlan("sensor." + CleanString(o.title) + "_" + CleanString(Name(c)) +
               (if t.Some? then "_" + CleanString(t.value) else ""),
             name, name, Some(c), t,
             AppliedTo(o.calibrateCalcApply, c, o.calibrateCalcValue))
  }

  // ---- the meter of a single-cycle or cron entry ------------------------------

  function SinglePeriod(m: MeterType): Option<Cycle>
  {
    if m.Single? then Some(m.c) else None
  }

  function SingleMeter(o: SetupOptions, t: Option<string>): (p: MeterPlan)
    ensures p.period == SinglePeriod(o.meterType) && p.tariff == t
    ensures p.name == o.title + Suffix(" ", t) && p.uniqueId == o.entryId + Suffix("_", t)
    ensures p.calibrateValue == o.calibrateValue && p.calibrateCalcValue == o.calibrateCalcValue
  {
    MeterPlan(o.title + Suffix(" ", t), o.entryId + Suffix("_", t), SinglePeriod(o.meterType), t,
              o.calibrateValue, o.calibrateCalcValue)
  }

  function SingleCalc(o: SetupOptions, t: Option<string>): (p: CalcPlan)
    ensures p.period == SinglePeriod(o.meterType) && p.tariff == t
    ensures p.uniqueId == p.name == o.title + Suffix(" ", t) + " Calculated"
    ensures p.calibrateCalcValue == o.calibrateCalcValue
  {
    var name := o.title + Suffix(" ", t) + " Calculated";
    CalcPlan("sensor." + CleanString(o.title) + (if t.Some? then "_" + CleanString(t.value) else ""),
             name, name, SinglePeriod(o.meterType), t, o.calibrateCalcValue)
  }

  // ---- the whole fan-out ------------------------------------------------------

  /** The meters of one cycle, one per tariff choice. */
  function MultiRow(o: SetupOptions, c: Cycle): seq<MeterPlan>
  {
    var ts := TariffChoices(o.tariffs);
    seq(|ts|, j requires 0 <= j < |ts| => MultiMeter(o, c, ts[j]))
  }

  function MultiCalcRow(o: SetupOptions, c: Cycle): seq<CalcPlan>
  {
    var ts := TariffChoices(o.tariffs);
    seq(|ts|, j requires 0 <= j < |ts| => MultiCalc(o, c, ts[j]))
  }

  /** Cycles outermost, tariffs innermost, in the order they are listed. */
  function MultiMeters(o: SetupOptions, cs: seq<Cycle>): seq<MeterPlan>
    decreases |cs|
  {
    if |cs| == 0 then [] else MultiMeters(o, cs[..|cs| - 1]) + MultiRow(o, cs[|cs| - 1])
  }

  function MultiCalcs(o: SetupOptions, cs: seq<Cycle>): seq<CalcPlan>
    decreases |cs|
  {
    if |cs| == 0 then [] else MultiCalcs(o, cs[..|cs| - 1]) + MultiCalcRow(o, cs[|cs| - 1])
  }

  function SingleMeters(o: SetupOptions): seq<MeterPlan>
  {
    var ts := TariffChoices(o.tariffs);
    seq(|ts|, j requires 0 <= j < |ts| => SingleMeter(o, ts[j]))
  }

  function SingleCalcs(o: SetupOptions): seq<CalcPlan>
  {
    var ts := TariffChoices(o.tariffs);
    seq(|ts|, j requires 0 <= j < |ts| => SingleCalc(o, ts[j]))
  }

  /** The meters an entry creates: every listed cycle of a multi-cycle entry is honoured. */
  function PlannedMeters(o: SetupOptions): seq<MeterPlan>
  {
    if o.meterType.Multi? then MultiMeters(o, o.meterType.cs) else SingleMeters(o)
  }

  /** The calculated sensors, one beside each meter when requested. */
  function PlannedCalcs(o: SetupOptions): seq<CalcPlan>
  {
    if !o.createCalc then []
    else if o.meterType.Multi? then MultiCalcs(o, o.meterType.cs) else SingleCalcs(o)
  }

  /**
   * `async_setup_entry`, with a multi-cycle list of any length taken through
   * the per-cycle loop (see `SetupAsWritten` for the guard as written).
   */
  method SetupEntry(o: SetupOptions) returns (meters: seq<MeterPlan>, calcs: seq<CalcPlan>)
    ensures meters == PlannedMeters(o) && calcs == PlannedCalcs(o)
  {
    if o.meterType.Multi? {
      meters, calcs := [], [];
      var cs := o.meterType.cs;
      var i := 0;
      while i < |cs|
        invariant 0 <= i <= |cs|
        invariant meters == MultiMeters(o, cs[..i])
        invariant calcs == if o.createCalc then MultiCalcs(o, cs[..i]) else []
      {
        assert cs[..i + 1][..i] == cs[..i];
        var rowMeters, rowCalcs := SetupCycle(o, cs[i]);
        meters := meters + rowMeters;
        calcs := calcs + rowCalcs;
        i := i + 1;
      }
      assert cs[..i] == cs;
    } else {
      meters, calcs := SetupSingle(o);
    }
  }

  /** The inner loop of the multi-cycle branch: one cycle, every tariff. */
  method SetupCycle(o: SetupOptions, c: Cycle) returns (meters: seq<MeterPlan>, calcs: seq<CalcPlan>)
    ensures meters == MultiRow(o, c)
    ensures calcs == if o.createCalc then MultiCalcRow(o, c) else []
  {
    var ts := TariffChoices(o.tariffs);
    meters, calcs := [], [];
    var j := 0;
    while j < |ts|
      invariant 0 <= j <= |ts|
      invariant meters == MultiRow(o, c)[..j]
      invariant calcs == if o.createCalc then MultiCalcRow(o, c)[..j] else []
    {
      PrefixStep(MultiRow(o, c), j, MultiMeter(o, c, ts[j]));
      meters := meters + [MultiMeter(o, c, ts[j])];
      if o.createCalc {
        PrefixStep(MultiCalcRow(o, c), j, MultiCalc(o, c, ts[j]));
        calcs := calcs + [MultiCalc(o, c, ts[j])];
      }
      j := j + 1;
    }
    assert MultiRow(o, c)[..j] == MultiRow(o, c);
    if o.createCalc {
      assert MultiCalcRow(o, c)[..j] == MultiCalcRow(o, c);
    }
  }

  /** The single-meter branch: one meter per tariff choice. */
  method SetupSingle(o: SetupOptions) returns (meters: seq<MeterPlan>, calcs: seq<CalcPlan>)
    requires !o.meterType.Multi?
    ensures meters == SingleMeters(o)
    ensures calcs == if o.createCalc then SingleCalcs(o) else []
  {
    var ts := TariffChoices(o.tariffs);
    meters, calcs := [], [];
    var j := 0;
    while j < |ts|
      invariant 0 <= j <= |ts|
      invariant meters == SingleMeters(o)[..j]
      invariant calcs == if o.createCalc then SingleCalcs(o)[..j] else []
    {
      PrefixStep(SingleMeters(o), j, SingleMeter(o, ts[j]));
      meters := meters + [SingleMeter(o, ts[j])];
      if o.createCalc {
        PrefixStep(SingleCalcs(o), j, SingleCalc(o, ts[j]));
        calcs := calcs + [SingleCalc(o, ts[j])];
      }
      j := j + 1;
    }
    assert SingleMeters(o)[..j] == SingleMeters(o);
    if o.createCalc {
      assert SingleCalcs(o)[..j] == SingleCalcs(o);
    }
  }

  // ---- what the fan-out guarantees ---------------------------------------------

  function Choices(o: SetupOptions): nat
  {
    if |o.tariffs| == 0 then 1 else |o.tariffs|
  }

  lemma {:induction false} MultiMetersCount(o: SetupOptions, cs: seq<Cycle>)
    ensures |MultiMeters(o, cs)| == |cs| * Choices(o)
    ensures |MultiCalcs(o, cs)| == |cs| * Choices(o)
    decreases |cs|
  {
    if |cs| > 0 {
      MultiMetersCount(o, cs[..|cs| - 1]);
    }
  }

  /** A multi-cycle entry creates one meter per cycle per tariff (one per cycle without tariffs). */
  lemma MeterCount(o: SetupOptions)
    ensures |PlannedMeters(o)| == (if o.meterType.Multi? then |o.meterType.cs| else 1) * Choices(o)
    ensures |PlannedCalcs(o)| == if o.createCalc then |PlannedMeters(o)| else 0
  {
    if o.meterType.Multi? {
      MultiMetersCount(o, o.meterType.cs);
    }
  }

  /** `p` is the meter of one listed cycle under one tariff choice. */
  predicate IsCombination(o: SetupOptions, cs: seq<Cycle>, p: MeterPlan)
  {
    p.period.Some? && p.period.value in cs && p.tariff in TariffChoices(o.tariffs) &&
    p == MultiMeter(o, p.period.value, p.tariff)
  }

  lemma InRow(o: SetupOptions, c: Cycle, p: MeterPlan)
    ensures p in MultiRow(o, c) <==>
            p.period == Some(c) && p.tariff in TariffChoices(o.tariffs) && p == MultiMeter(o, c, p.tariff)
  {
    var ts := TariffChoices(o.tariffs);
    if p.period == Some(c) && p.tariff in ts && p == MultiMeter(o, c, p.tariff) {
      var j :| 0 <= j < |ts| && ts[j] == p.tariff;
      assert MultiRow(o, c)[j] == p;
    }
  }

  /** Exactly the (cycle, tariff) combinations are planned, for every listed cycle. */
  lemma {:induction false} MultiMetersAreTheCombinations(o: SetupOptions, cs: seq<Cycle>, p: MeterPlan)
    ensures p in MultiMeters(o, cs) <==> IsCombination(o, cs, p)
    decreases |cs|
  {
    if |cs| > 0 {
      var n := |cs| - 1;
      MultiMetersAreTheCombinations(o, cs[..n], p);
      InRow(o, cs[n], p);
      assert cs == cs[..n] + [cs[n]];
    }
  }

  /**
   * With distinct cycles and distinct tariffs no meter is planned twice, so
   * each (cycle, tariff) combination gets exactly one meter.
   */
  lemma {:induction false} MultiMetersDistinct(o: SetupOptions, cs: seq<Cycle>)
    requires NoDuplicates(cs) && NoDuplicates(o.tariffs)
    ensures NoDuplicates(MultiMeters(o, cs))
    decreases |cs|
  {
    if |cs| > 0 {
      var n := |cs| - 1;
      assert NoDuplicates(cs[..n]);
      MultiMetersDistinct(o, cs[..n]);
      var prefix := MultiMeters(o, cs[..n]);
      var row := MultiRow(o, cs[n]);
      RowDistinct(o, cs[n]);
      forall p | p in prefix
        ensures p !in row
      {
        MultiMetersAreTheCombinations(o, cs[..n], p);
        InRow(o, cs[n], p);
        assert cs[n] !in cs[..n];
      }
      AppendDistinct(prefix, row);
    }
  }

  lemma RowDistinct(o: SetupOptions, c: Cycle)
    requires NoDuplicates(o.tariffs)
    ensures NoDuplicates(MultiRow(o, c))
  {
    var row := MultiRow(o, c);
    var ts := TariffChoices(o.tariffs);
    forall a, b | 0 <= a < b < |row|
      ensures row[a] != row[b]
    {
      assert row[a].tariff == ts[a] && row[b].tariff == ts[b];
    }
  }

  lemma AppendDistinct<T>(xs: seq<T>, ys: seq<T>)
    requires NoDuplicates(xs) && NoDuplicates(ys)
    requires forall x :: x in xs ==> x !in ys
    ensures NoDuplicates(xs + ys)
  {
    var zs := xs + ys;
    forall a, b | 0 <= a < b < |zs|
      ensures zs[a] != zs[b]
    {
      if a < |xs| && b >= |xs| {
        assert zs[a] in xs && zs[b] == ys[b - |xs|];
      }
    }
  }

  /** A calibration value reaches exactly the meters of the cycle its apply field names. */
  lemma CalibrationOnlyForNamedCycle(o: SetupOptions, p: MeterPlan)
    requires o.meterType.Multi? && p in PlannedMeters(o)
    ensures p.period.Some?
    ensures p.calibrateValue == if o.calibrateApply == p.period then o.calibrateValue else 0.0
    ensures p.calibrateCalcValue == if o.calibrateCalcApply == p.period then o.calibrateCalcValue else 0.0
  {
    MultiMetersAreTheCombinations(o, o.meterType.cs, p);
  }

  // ---- the single/multi guard as written -----------------------------------------

  datatype SetupResult = Planned(meters: seq<MeterPlan>, calcs: seq<CalcPlan>) | TypeError

  /**
   * The guard as written takes a multi-cycle list through the per-cycle loop
   * only when it has more than one entry. A shorter list reaches the
   * single-meter path, where the meter's constructor looks the whole list up
   * in the cycle-to-cron table; a list is not a valid key, so setup fails.
   */
  function SetupAsWritten(o: SetupOptions): (r: SetupResult)
    ensures o.meterType.Multi? && |o.meterType.cs| <= 1 <==> r == TypeError
  {
    if o.meterType.Multi? && |o.meterType.cs| <= 1 then TypeError
    else Planned(PlannedMeters(o), PlannedCalcs(o))
  }

  /** The guard as written refuses a multi-cycle entry with one selected cycle. */
  lemma OneCycleMultiEntryFails(o: SetupOptions, c: Cycle)
    requires o.meterType == Multi([c])
    ensures SetupAsWritten(o) == TypeError
  {
  }

  /** Taken through the loop, the same entry gets that cycle's meters, one per tariff. */
  lemma OneCycleMultiEntryBuildsItsCycle(o: SetupOptions, c: Cycle)
    requires o.meterType == Multi([c])
    ensures |PlannedMeters(o)| == Choices(o)
    ensures forall p :: p in PlannedMeters(o) ==> p.period == Some(c)
  {
    MeterCount(o);
    forall p | p in PlannedMeters(o)
      ensures p.period == Some(c)
    {
      MultiMetersAreTheCombinations(o, [c], p);
    }
  }

  /** Elsewhere the guard as written and the loop agree. */
  lemma GuardAgreesOtherwise(o: SetupOptions)
    requires !(o.meterType.Multi? && |o.meterType.cs| <= 1)
    ensures SetupAsWritten(o) == Planned(PlannedMeters(o), PlannedCalcs(o))
  {
  }
}
