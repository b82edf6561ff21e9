// Utility meter (next gen): how the config and options flows (config_flow.py)
// normalise the options a meter entry is created with.

module MeterConfigFlow {
  import opened Common
  import opened MeterConst
  import opened MeterSensor

  /** A value of the options dictionary. */
  datatype Val = VNone | VBool(b: bool) | VNum(r: real) | VText(s: string) | VList(xs: seq<string>) | VOffset(o: Offset)

  type Options = map<string, Val>

  /** What a flow step answers: a form (with an error under "base"), a created entry, or a `KeyError`. */
  datatype FlowResult = ShowForm(step: string, error: Option<string>) | CreateEntry(title: Val, options: Options) | KeyError

  /** The state of the flow's `data` dictionary together with the step's answer. */
  datatype Outcome = Outcome(data: Options, result: FlowResult)

  /** Python truthiness of an option value. */
  predicate Truthy(v: Val)
  {
    match v
    case VNone => false
    case VBool(b) => b
    case VNum(r) => r != 0.0
    case VText(s) => s != ""
    case VList(xs) => xs != []
    case VOffset(_) => true
  }

  /**
   * The check made on a selected sensor: missing, unavailable or unknown are
   * errors. A state that is not a number is accepted, because the state
   * validator returns None instead of raising.
   */
  function SensorError(states: map<string, EntityState>, id: Val, prefix: string): (e: Option<string>)
    ensures e.None? <==> id.VText? && id.s in states && states[id.s] != Unavailable && states[id.s] != Unknown
  {
    if !id.VText? || id.s !in states then Some(prefix + "_not_found")
    else if states[id.s] == Unavailable || states[id.s] == Unknown then Some(prefix + "_unavailable")
    else None
  }

  /** A later error replaces an earlier one under the same key. */
  function Later(first: Option<string>, second: Option<string>): Option<string>
  {
    if second.Some? then second else first
  }

  /** The entry is created under the `name` the user gave. */
  function Create(d: Options): FlowResult
  {
    if "name" in d then CreateEntry(d["name"], d) else KeyError
  }

  // ---- user step ---------------------------------------------------------------

  /** An absent price sensor is stored as None. */
  function UserInput(input: Options): (ui: Options)
    ensures "source_calc_sensor" in ui
    ensures "source_calc_sensor" !in input ==> ui == input["source_calc_sensor" := VNone]
    ensures "source_calc_sensor" in input ==> ui == input
  {
    if "source_calc_sensor" in input then input else input["source_calc_sensor" := VNone]
  }

  function UserErrors(input: Options, states: map<string, EntityState>): Option<string>
    requires "source" in input
  {
    Later(SensorError(states, input["source"], "source_sensor"),
          if "source_calc_sensor" in input then SensorError(states, input["source_calc_sensor"], "source_calc_sensor")
          else None)
  }

  /** `async_step_user`: validate the sensors, keep the input, then route by config type. */
  function UserStep(data: Options, input: Option<Options>, states: map<string, EntityState>): (r: Outcome)
    requires input.Some? ==> "source" in input.value
  {
    if input.None? then Outcome(data, ShowForm("user", None))
    else
      var errors := UserErrors(input.value, states);
      if errors.Some? then Outcome(data, ShowForm("user", errors))
      else
        var d := UserInput(input.value)["meters" := VList([])];
        var next :=
          if "config_type" in d && d["config_type"] == VText("cron") then ShowForm("cron", None)
          else if "config_type" in d && d["config_type"] == VText("predefined") then ShowForm("predefined", None)
          else if "config_type" in d && d["config_type"] == VText("multi") then ShowForm("multi_step_1", None)
          else ShowForm("user", None);
        Outcome(d, next)
  }

  /** Whenever the user step keeps the input, a missing price sensor is stored as None. */
  lemma UserStepStoresMissingCalcSensorAsNone(data: Options, input: Options, states: map<string, EntityState>)
    requires "source" in input && "source_calc_sensor" !in input
    requires UserErrors(input, states).None?
    ensures var r := UserStep(data, Some(input), states);
            "source_calc_sensor" in r.data && r.data["source_calc_sensor"] == VNone &&
            r.data["meters"] == VList([]) &&
            forall k :: k in input ==> k in r.data && (k != "meters" ==> r.data[k] == input[k])
  {
  }

  /** A source sensor whose state is not a number passes the user step unreported. */
  lemma NonNumericSourceIsAccepted(data: Options, input: Options, states: map<string, EntityState>)
    requires "source" in input && input["source"].VText? && input["source"].s in states
    requires states[input["source"].s] == NotANumber && "source_calc_sensor" !in input
    ensures UserErrors(input, states).None?
    ensures UserStep(data, Some(input), states).data == UserInput(input)["meters" := VList([])]
  {
  }

  // ---- cron, predefined and multi steps ----------------------------------------------

  const CronDefaults: Options := map[
    "calibrate_apply" := VNone,
    "calibrate_calc_apply" := VNone,
    "calibrate_calc_value" := VNum(0.0),
    "calibrate_value" := VNum(0.0),
    "create_calculation_sensor" := VBool(false),
    "source_calc_multiplier" := VNum(1.0),
    "offset" := VOffset(DefaultOffset),
    "cycle" := VNone,
    "tariffs" := VList([])]

  const PredefinedDefaults: Options := map[
    "calibrate_apply" := VNone,
    "calibrate_calc_apply" := VNone,
    "calibrate_calc_value" := VNum(0.0),
    "calibrate_value" := VNum(0.0),
    "cron" := VNone,
    "create_calculation_sensor" := VBool(false),
    "source_calc_multiplier" := VNum(1.0),
    "tariffs" := VList([])]

  const MultiDefaults: Options := map[
    "offset" := VOffset(DefaultOffset),
    "calibrate_calc_value" := VNum(0.0),
    "calibrate_value" := VNum(0.0),
    "cron" := VNone,
    "create_calculation_sensor" := VBool(false),
    "source_calc_multiplier" := VNum(1.0),
    "tariffs" := VList([])]

  /** Defaults are written first and the submitted input is merged over them. */
  function WithDefaults(data: Options, defaults: Options, input: Options): (d: Options)
    ensures forall k :: k in input ==> k in d && d[k] == input[k]
    ensures forall k :: k in defaults && k !in input ==> k in d && d[k] == defaults[k]
    ensures forall k :: k in d <==> k in data || k in defaults || k in input
    ensures forall k :: k in data && k !in defaults && k !in input ==> d[k] == data[k]
  {
    data + defaults + input
  }

  /** `async_step_cron`; whether the cron expression parses is decided outside the model. */
  function CronStep(data: Options, input: Option<Options>, cronValid: bool): Outcome
  {
    if input.None? then Outcome(data, ShowForm("cron", None))
    else if !cronValid then Outcome(data, ShowForm("cron", Some("invalid_cron")))
    else
      var d := WithDefaults(data, CronDefaults, input.value);
      Outcome(d, Create(d))
  }

  function PredefinedStep(data: Options, input: Option<Options>): Outcome
  {
    if input.None? then Outcome(data, ShowForm("predefined", None))
    else
      var d := WithDefaults(data, PredefinedDefaults, input.value);
      Outcome(d, Create(d))
  }

  function MultiStep1(data: Options, input: Option<Options>): Outcome
  {
    if input.None? then Outcome(data, ShowForm("multi_step_1", None))
    else Outcome(WithDefaults(data, MultiDefaults, input.value), ShowForm("multi_step_2", None))
  }

  /** A missing apply field, or one set to "none", becomes None. */
  function NoneIfUnset(input: Options, key: string): (ui: Options)
    ensures key in ui
    ensures ui[key] == VNone <==> key !in input || input[key] == VText("none") || input[key] == VNone
    ensures key in input && input[key] != VText("none") ==> ui[key] == input[key]
    ensures forall k :: k != key ==> (k in ui <==> k in input) && (k in input ==> ui[k] == input[k])
  {
    if key !in input || input[key] == VText("none") then input[key := VNone] else input
  }

  function MultiStep2(data: Options, input: Option<Options>): Outcome
  {
    if input.None? then Outcome(data, ShowForm("multi_step_2", None))
    else
      var ui := NoneIfUnset(NoneIfUnset(input.value, "calibrate_apply"), "calibrate_calc_apply");
      var d := data + ui;
      Outcome(d, Create(d))
  }

  /** The cron step leaves no cycle and no calibration target behind unless the user set one. */
  lemma CronStepDefaults(data: Options, input: Options)
    requires "cycle" !in input && "calibrate_apply" !in input && "tariffs" !in input && "offset" !in input
    ensures var r := CronStep(data, Some(input), true);
            r.data["cycle"] == VNone && r.data["calibrate_apply"] == VNone && r.data["tariffs"] == VList([]) &&
            r.data["offset"] == VOffset(DefaultOffset) &&
            (r.result.CreateEntry? <==> "name" in data || "name" in input)
  {
  }

  /** Whatever the user submits in the predefined step wins over the defaults. */
  lemma PredefinedInputWins(data: Options, input: Options, k: string)
    requires k in input
    ensures var r := PredefinedStep(data, Some(input));
            k in r.data && r.data[k] == input[k]
  {
  }

  /** After the multi-cycle steps both apply fields are a cycle key or None, never "none". */
  lemma MultiStep2NeverStoresNone(data: Options, input: Options)
    ensures var r := MultiStep2(data, Some(input));
            "calibrate_apply" in r.data && r.data["calibrate_apply"] != VText("none") &&
            "calibrate_calc_apply" in r.data && r.data["calibrate_calc_apply"] != VText("none")
  {
  }

  /** The config flow: `data` is filled step by step. */
  class ConfigFlow {
    var data: Options

    constructor()
      ensures data == map[]
    {
      data := map[];
    }

    method User(input: Option<Options>, states: map<string, EntityState>) returns (r: FlowResult)
      requires input.Some? ==> "source" in input.value
      modifies this
      ensures Outcome(data, r) == UserStep(old(data), input, states)
    {
      if input.None? {
        return ShowForm("user", None);
      }
      var ui := input.value;
      var errors := SensorError(states, ui["source"], "source_sensor");
      if "source_calc_sensor" in ui {
        var calcError := SensorError(states, ui["source_calc_sensor"], "source_calc_sensor");
        if calcError.Some? {
          errors := calcError;
        }
      } else {
        ui := ui["source_calc_sensor" := VNone];
      }
      if errors.Some? {
        return ShowForm("user", errors);
      }
      data := ui;
      data := data["meters" := VList([])];
      if "config_type" in data && data["config_type"] == VText("cron") {
        r := ShowForm("cron", None);
      } else if "config_type" in data && data["config_type"] == VText("predefined") {
        r := ShowForm("predefined", None);
      } else if "config_type" in data && data["config_type"] == VText("multi") {
        r := ShowForm("multi_step_1", None);
      } else {
        r := ShowForm("user", None);
      }
    }

    method Cron(input: Option<Options>, cronValid: bool) returns (r: FlowResult)
      modifies this
      ensures Outcome(data, r) == CronStep(old(data), input, cronValid)
    {
      if input.None? {
        return ShowForm("cron", None);
      }
      if !cronValid {
        return ShowForm("cron", Some("invalid_cron"));
      }
      data := data + CronDefaults;
      data := data + input.value;
      r := Create(data);
    }

    method Predefined(input: Option<Options>) returns (r: FlowResult)
      modifies this
      ensures Outcome(data, r) == PredefinedStep(old(data), input)
    {
      if input.None? {
        return ShowForm("predefined", None);
      }
      data := data + PredefinedDefaults;
      data := data + input.value;
      r := Create(data);
    }

    method Multi1(input: Option<Options>) returns (r: FlowResult)
      modifies this
      ensures Outcome(data, r) == MultiStep1(old(data), input)
    {
      if input.None? {
        return ShowForm("multi_step_1", None);
      }
      data := data + MultiDefaults;
      data := data + input.value;
      r := ShowForm("multi_step_2", None);
    }

    method Multi2(input: Option<Options>) returns (r: FlowResult)
      modifies this
      ensures Outcome(data, r) == MultiStep2(old(data), input)
    {
      if input.None? {
        return ShowForm("multi_step_2", None);
      }
      var ui := input.value;
      if "calibrate_apply" !in ui || ui["calibrate_apply"] == VText("none") {
        ui := ui["calibrate_apply" := VNone];
      }
      if "calibrate_calc_apply" !in ui || ui["calibrate_calc_apply"] == VText("none") {
        ui := ui["calibrate_calc_apply" := VNone];
      }
      data := data + ui;
      r := Create(data);
    }
  }

  // ---- options flow --------------------------------------------------------------

  /**
   * The submitted options after `async_step_init` has normalised them, and the
   * error the price-sensor check left under "base".
   */
  datatype Normalised = Normalised(options: Options, error: Option<string>)

  function PriceSensorChoice(input: Options): (ui: Options)
    ensures "source_calc_sensor" in ui
  {
    var ui := if "remove_calc_sensor" in input && Truthy(input["remove_calc_sensor"])
              then input["source_calc_sensor" := VNone]["create_calculation_sensor" := VBool(false)]
              else input;
    if "source_calc_sensor" in ui then ui
    else ui["source_calc_sensor" := VNone]["create_calculation_sensor" := VBool(false)]
  }

  function PriceSensorError(input: Options, states: map<string, EntityState>): Option<string>
  {
    var ui := if "remove_calc_sensor" in input && Truthy(input["remove_calc_sensor"])
              then input["source_calc_sensor" := VNone] else input;
    if "source_calc_sensor" in ui && ui["source_calc_sensor"] != VNone
    then SensorError(states, ui["source_calc_sensor"], "source_calc_sensor")
    else None
  }

  /** The fields a config type fixes, whatever was submitted. */
  function FixedByType(configType: Val): Options
  {
    if configType == VText("cron") then
      map["calibrate_apply" := VNone, "calibrate_calc_apply" := VNone, "config_type" := VText("cron"),
          "offset" := VOffset(DefaultOffset), "cycle" := VNone]
    else if configType == VText("predefined") then
      map["calibrate_apply" := VNone, "calibrate_calc_apply" := VNone, "cron" := VNone,
          "config_type" := VText("predefined")]
    else if configType == VText("multi") then
      map["cron" := VNone, "config_type" := VText("multi"), "offset" := VOffset(DefaultOffset)]
    else map[]
  }

  /**
   * The shared core of `async_step_init`: the price-sensor choice, the empty
   * tariffs rule and the fields the stored config type pins, with the
   * price-sensor check's error beside it.
   */
  function NormaliseOptions(stored: Options, input: Options, states: map<string, EntityState>): (n: Normalised)
    requires "tariffs" in stored && "config_type" in stored
    ensures "source_calc_sensor" in n.options
    ensures var f := FixedByType(stored["config_type"]);
            forall k :: k in f ==> k in n.options && n.options[k] == f[k]
    ensures stored["tariffs"] == VList([]) ==> "tariffs" in n.options && n.options["tariffs"] == VList([])
    ensures n.error == PriceSensorError(input, states)
  {
    var ui := PriceSensorChoice(input);
    var ui2 := if stored["tariffs"] == VList([]) then ui["tariffs" := VList([])] else ui;
    Normalised(ui2 + FixedByType(stored["config_type"]), PriceSensorError(input, states))
  }

  /** Removing the price sensor, or leaving it out, clears it and turns the calculated sensor off. */
  lemma RemovedPriceSensorIsCleared(stored: Options, input: Options, states: map<string, EntityState>)
    requires "tariffs" in stored && "config_type" in stored
    requires ("remove_calc_sensor" in input && Truthy(input["remove_calc_sensor"])) || "source_calc_sensor" !in input
    ensures var o := NormaliseOptions(stored, input, states).options;
            o["source_calc_sensor"] == VNone &&
            "create_calculation_sensor" in o && o["create_calculation_sensor"] == VBool(false)
    ensures NormaliseOptions(stored, input, states).error.None?
  {
    var ui := PriceSensorChoice(input);
    assert ui["source_calc_sensor"] == VNone && ui["create_calculation_sensor"] == VBool(false);
    var ui2 := if stored["tariffs"] == VList([]) then ui["tariffs" := VList([])] else ui;
    assert ui2["source_calc_sensor"] == VNone && ui2["create_calculation_sensor"] == VBool(false);
    PriceSensorKeysAreFree(stored["config_type"]);
  }

  /** No config type fixes the price-sensor fields or the tariffs. */
  lemma PriceSensorKeysAreFree(configType: Val)
    ensures "source_calc_sensor" !in FixedByType(configType)
    ensures "create_calculation_sensor" !in FixedByType(configType)
    ensures "tariffs" !in FixedByType(configType)
  {
  }

  /** An entry stored without tariffs keeps none, whatever is submitted. */
  lemma EmptyTariffsStayEmpty(stored: Options, input: Options, states: map<string, EntityState>)
    requires "tariffs" in stored && "config_type" in stored && stored["tariffs"] == VList([])
    ensures var o := NormaliseOptions(stored, input, states).options;
            "tariffs" in o && o["tariffs"] == VList([])
  {
  }

  /** The stored config type pins the fields that do not apply to it. */
  lemma ConfigTypeFixesFields(stored: Options, input: Options, states: map<string, EntityState>)
    requires "tariffs" in stored && "config_type" in stored
    ensures var o := NormaliseOptions(stored, input, states).options;
            var t := stored["config_type"];
            (t == VText("cron") ==>
               o["cycle"] == VNone && o["offset"] == VOffset(DefaultOffset) &&
               o["calibrate_apply"] == VNone && o["calibrate_calc_apply"] == VNone &&
               o["config_type"] == t) &&
            (t == VText("predefined") ==>
               o["cron"] == VNone && o["calibrate_apply"] == VNone && o["config_type"] == t) &&
            (t == VText("multi") ==>
               o["cron"] == VNone && o["offset"] == VOffset(DefaultOffset) && o["config_type"] == t)
  {
    var t := stored["config_type"];
    var o := NormaliseOptions(stored, input, states).options;
    assert o == NormaliseOptions(stored, input, states).options;
    if t == VText("cron") {
      assert FixedByType(t)["cycle"] == VNone && FixedByType(t)["offset"] == VOffset(DefaultOffset);
    } else if t == VText("predefined") {
      assert FixedByType(t)["cron"] == VNone;
    } else if t == VText("multi") {
      assert FixedByType(t)["cron"] == VNone;
    }
  }

  /** Options the type does not fix and the normalisation does not touch are kept as submitted. */
  lemma OtherOptionsAreKept(stored: Options, input: Options, states: map<string, EntityState>, k: string)
    requires "tariffs" in stored && "config_type" in stored
    requires k in input && k !in FixedByType(stored["config_type"])
    requires k != "source_calc_sensor" && k != "create_calculation_sensor" && k != "tariffs"
    ensures var o := NormaliseOptions(stored, input, states).options;
            k in o && o[k] == input[k]
  {
  }

  /** As written, `async_step_init` creates the entry even when the price-sensor check failed. */
  function OptionsInitAsWritten(title: Val, stored: Options, input: Options, states: map<string, EntityState>)
    : (r: FlowResult)
    requires "tariffs" in stored && "config_type" in stored
    ensures r.CreateEntry? && r.title == title
    ensures r.options == NormaliseOptions(stored, input, states).options
  {
    CreateEntry(title, NormaliseOptions(stored, input, states).options)
  }

  /** A price sensor that does not exist is saved anyway, and its error is never shown. */
  lemma MissingPriceSensorIsSaved(title: Val, stored: Options, input: Options)
    requires "tariffs" in stored && "config_type" in stored
    requires input == map["source_calc_sensor" := VText("sensor.price")]
    ensures NormaliseOptions(stored, input, map[]).error == Some("source_calc_sensor_not_found")
    ensures OptionsInitAsWritten(title, stored, input, map[]).CreateEntry?
  {
    assert "source_calc_sensor" + "_not_found" == "source_calc_sensor_not_found";
  }

  /** The options flow of one entry. */
  class OptionsFlow {
    const title: Val
    const data: Options

    constructor(title: Val, options: Options)
      ensures this.title == title && data == options
    {
      this.title := title;
      data := options;
    }

    /**
     * `async_step_init`, showing the form again when the price-sensor check
     * reports an error and otherwise creating the entry from the normalised
     * input.
     */
    method Init(input: Option<Options>, states: map<string, EntityState>) returns (r: FlowResult)
      requires "tariffs" in data && "config_type" in data
      ensures input.None? ==> r == ShowForm("init", None)
      ensures input.Some? ==>
                var n := NormaliseOptions(data, input.value, states);
                r == if n.error.Some? then ShowForm("init", n.error) else CreateEntry(title, n.options)
    {
      if input.None? {
        return ShowForm("init", None);
      }
      var ui := input.value;
      if "remove_calc_sensor" in ui && Truthy(ui["remove_calc_sensor"]) {
        ui := ui["source_calc_sensor" := VNone];
        ui := ui["create_calculation_sensor" := VBool(false)];
      }
      var error: Option<string> := None;
      if "source_calc_sensor" in ui {
        if ui["source_calc_sensor"] != VNone {
          error := SensorError(states, ui["source_calc_sensor"], "source_calc_sensor");
        }
      } else {
        ui := ui["source_calc_sensor" := VNone];
        ui := ui["create_calculation_sensor" := VBool(false)];
      }
      if data["tariffs"] == VList([]) {
        ui := ui["tariffs" := VList([])];
      }
      ui := ui + FixedByType(data["config_type"]);
      if error.Some? {
        return ShowForm("init", error);
      }
      r := CreateEntry(title, ui);
    }
  }
}
